/**
  The weekly charging schedule: programs are painted in order onto a
  matrix of 168 hours, each hour landing one day later in the matrix.
 */
module Schedule {
  import opened Chargers

  const WEEK: nat := 168

  /** The six decoded bytes of a program. */
  datatype Program = Program(active: nat, days: nat, start: nat, end: nat, powerHigh: nat, powerLow: nat)

  predicate InDay(p: Program) { p.start < 24 && p.end < 24 }

  function Power(p: Program): nat { Byte((p.powerHigh * 256 + p.powerLow) / 100) }

  /** Hours from start to end; equal hours mean the whole day. */
  function Delta(s: nat, e: nat): nat { if e - s <= 0 then Byte(e - s + 24) else Byte(e - s) }

  function Bit(day: nat): nat
    requires day < 7
  {
    [1, 2, 4, 8, 16, 32, 64][day]
  }

  predicate Enabled(p: Program, day: nat)
    requires day < 7
  {
    (Byte(p.days) / Bit(day)) % 2 == 1
  }

  function Cell(hour: nat): (c: nat)
    ensures c < WEEK
  {
    (hour + 24) % WEEK
  }

  function Begin(p: Program, day: nat): nat { Byte(day * 24 + p.start) }

  function Finish(p: Program, day: nat): nat { Byte(Begin(p, day) + Delta(p.start, p.end)) }

  /** The loop over hours of one day writes this cell. */
  predicate Touches(p: Program, day: nat, cell: nat) {
    exists hour :: Begin(p, day) <= hour < Finish(p, day) && Cell(hour) == cell
  }

  predicate Writes(p: Program, cell: nat) {
    exists day :: 0 <= day < 7 && Enabled(p, day) && Touches(p, day, cell)
  }

  /** One program painted over the matrix; a program that is not active changes nothing. */
  method CreateMatrix(p: Program, out: array<nat>) returns (err: nat)
    requires out.Length == WEEK
    modifies out
    ensures err == if p.active == 1 then 0 else 1
    ensures forall c :: 0 <= c < WEEK ==>
              out[c] == if p.active == 1 && Writes(p, c) then Power(p) else old(out[c])
  {
    if p.active != 1 { return 1; }
    var power := Power(p);
    for day := 0 to 7
      invariant forall c :: 0 <= c < WEEK ==>
        out[c] == if exists d :: 0 <= d < day && Enabled(p, d) && Touches(p, d, c) then power else old(out[c])
    {
      if Enabled(p, day) { PaintDay(p, day, power, out); }
    }
    return 0;
  }

  method PaintDay(p: Program, day: nat, power: nat, out: array<nat>)
    requires out.Length == WEEK && day < 7
    modifies out
    ensures forall c :: 0 <= c < WEEK ==> out[c] == if Touches(p, day, c) then power else old(out[c])
  {
    var init, fin := Begin(p, day), Finish(p, day);
    var hour := init;
    while hour < fin
      invariant hour <= fin || hour == init
      invariant forall c :: 0 <= c < WEEK ==>
        out[c] == if exists h :: init <= h < hour && Cell(h) == c then power else old(out[c])
    {
      out[Cell(hour)] := power;
      hour := hour + 1;
    }
  }

  // ----- what the matrix means

  /**
    The hour of the week shown in a cell lies one day earlier.  A program that ends later in the day
    than it starts covers the hours in between; any other one covers the hours from its start to
    midnight, and those of the next day before its end.
   */
  predicate Covers(p: Program, cell: nat) {
    var week := (cell + WEEK - 24) % WEEK;
    var day, hour := week / 24, week % 24;
    if p.start < p.end then Enabled(p, day) && p.start <= hour < p.end
    else (Enabled(p, day) && p.start <= hour) || (Enabled(p, (day + 6) % 7) && hour < p.end)
  }

  /** A program lasts from its start to the next time that its end strikes. */
  lemma DeltaMeans(p: Program)
    requires InDay(p)
    ensures Delta(p.start, p.end) == (p.end - p.start + 23) % 24 + 1
    ensures Delta(p.start, p.end) == if p.start < p.end then p.end - p.start else 24 - p.start + p.end
  {
    SmallByte(if p.start < p.end then p.end - p.start else 24 - p.start + p.end);
  }

  /** What the days from this one on add to the mask, the first of them counting 1. */
  function DaysFrom(p: Program, day: nat): nat
    requires day <= 7
    decreases 7 - day
  {
    if day == 7 then 0 else (if Enabled(p, day) then 1 else 0) + 2 * DaysFrom(p, day + 1)
  }

  lemma Halved(x: nat, day: nat)
    requires x < 128 && day < 7
    ensures x / Bit(day) == (x / Bit(day)) % 2 + 2 * if day == 6 then 0 else x / Bit(day + 1)
  {
    match day
    case 0 =>
    case 1 =>
    case 2 =>
    case 3 =>
    case 4 =>
    case 5 =>
    case _ =>
  }

  lemma {:induction false} DaysFromMeans(p: Program, day: nat)
    requires p.days < 128 && day < 7
    ensures DaysFrom(p, day) == p.days / Bit(day)
    decreases 7 - day
  {
    SmallByte(p.days);
    Halved(p.days, day);
    if day < 6 { DaysFromMeans(p, day + 1); }
  }

  /** The days of a program are the binary digits of its mask, the first day the lowest. */
  lemma DaysAreBits(p: Program)
    requires p.days < 128
    ensures p.days == DaysFrom(p, 0)
  {
    DaysFromMeans(p, 0);
  }

  /** The power is the two decoded bytes in hundreds of watts. */
  lemma PowerIsHundreds(p: Program)
    requires p.powerHigh < 100 && p.powerLow < 256
    ensures 100 * Power(p) <= 256 * p.powerHigh + p.powerLow < 100 * (Power(p) + 1)
  {
    SmallByte((p.powerHigh * 256 + p.powerLow) / 100);
  }

  /** Hours of the day never wrap the byte arithmetic. */
  lemma DayBounds(p: Program, day: nat)
    requires InDay(p) && day < 7
    ensures Begin(p, day) == 24 * day + p.start && 1 <= Delta(p.start, p.end) <= 24
    ensures Finish(p, day) == 24 * day + p.start + Delta(p.start, p.end)
  {
    SmallByte(day * 24 + p.start);
    var d := p.end - p.start;
    SmallByte(if d <= 0 then d + 24 else d);
    SmallByte(day * 24 + p.start + Delta(p.start, p.end));
  }

  lemma SmallByte(x: nat)
    requires x < 256
    ensures Byte(x) == x
  {
  }

  lemma WeekHour(hour: nat)
    requires hour < 192
    ensures (Cell(hour) + WEEK - 24) % WEEK == if hour < WEEK then hour else hour - WEEK
  {
  }

  lemma DayHour(week: nat, day: nat, hour: nat)
    requires week == 24 * day + hour && hour < 24
    ensures week / 24 == day && week % 24 == hour
  {
  }

  lemma CoversIfTouched(p: Program, day: nat, hour: nat)
    requires InDay(p) && day < 7 && Enabled(p, day)
    requires Begin(p, day) <= hour < Finish(p, day)
    ensures Covers(p, Cell(hour))
  {
    DeltaMeans(p);
    DayBounds(p, day);
    WeekHour(hour);
    if hour < 24 * day + 24 {
      DayHour(hour, day, hour - 24 * day);
    } else if day < 6 {
      DayHour(hour, day + 1, hour - 24 * day - 24);
    } else {
      DayHour(hour - WEEK, 0, hour - WEEK);
    }
  }

  lemma TouchedIfCovers(p: Program, cell: nat)
    requires InDay(p) && cell < WEEK && Covers(p, cell)
    ensures Writes(p, cell)
  {
    var week := (cell + WEEK - 24) % WEEK;
    var day, hour := week / 24, week % 24;
    DeltaMeans(p);
    if Enabled(p, day) && p.start <= hour < p.start + Delta(p.start, p.end) {
      DayBounds(p, day);
      TouchesAt(p, day, week, cell);
    } else {
      var before := (day + 6) % 7;
      DayBounds(p, before);
      assert day == if before == 6 then 0 else before + 1;
      TouchesAt(p, before, 24 * before + 24 + hour, cell);
    }
  }

  lemma TouchesAt(p: Program, day: nat, hour: nat, cell: nat)
    requires day < 7 && Enabled(p, day) && Begin(p, day) <= hour < Finish(p, day) && hour < 192 && cell < WEEK
    requires (cell + WEEK - 24) % WEEK == if hour < WEEK then hour else hour - WEEK
    ensures Writes(p, cell)
  {
    assert Cell(hour) == cell;
    assert Touches(p, day, cell);
  }

  /** For hours of the day, the cells written are exactly those of the hours covered. */
  lemma WritesIffCovers(p: Program, cell: nat)
    requires InDay(p) && cell < WEEK
    ensures Writes(p, cell) <==> Covers(p, cell)
  {
    if Writes(p, cell) {
      var day :| 0 <= day < 7 && Enabled(p, day) && Touches(p, day, cell);
      var hour :| Begin(p, day) <= hour < Finish(p, day) && Cell(hour) == cell;
      CoversIfTouched(p, day, hour);
    }
    if Covers(p, cell) { TouchedIfCovers(p, cell); }
  }

  /** The power of the last active program that covers the cell, else 0. */
  function Scheduled(ps: seq<Program>, cell: nat): nat {
    if ps == [] then 0
    else
      var p := ps[|ps| - 1];
      if p.active == 1 && Covers(p, cell) then Power(p) else Scheduled(ps[..|ps| - 1], cell)
  }

  /** All programs of the week, painted in order onto an empty matrix. */
  method BuildSchedule(ps: seq<Program>) returns (out: array<nat>, anyActive: bool)
    requires forall p :: p in ps ==> InDay(p)
    ensures fresh(out) && out.Length == WEEK
    ensures forall c :: 0 <= c < WEEK ==> out[c] == Scheduled(ps, c)
    ensures anyActive <==> exists i :: 0 <= i < |ps| && ps[i].active == 1
  {
    out, anyActive := new nat[WEEK](_ => 0), false;
    for i := 0 to |ps|
      invariant fresh(out) && out.Length == WEEK
      invariant forall c :: 0 <= c < WEEK ==> out[c] == Scheduled(ps[..i], c)
      invariant anyActive <==> exists k :: 0 <= k < i && ps[k].active == 1
    {
      assert ps[i] in ps && ps[..i + 1][..i] == ps[..i];
      forall c | 0 <= c < WEEK ensures Writes(ps[i], c) <==> Covers(ps[i], c) { WritesIffCovers(ps[i], c); }
      var err := CreateMatrix(ps[i], out);
      if err == 0 { anyActive := true; }
    }
    assert ps[..|ps|] == ps;
  }

  // ----- how many cells one program writes

  function EnabledDays(p: Program, n: nat): nat
    requires n <= 7
  {
    if n == 0 then 0 else EnabledDays(p, n - 1) + if Enabled(p, n - 1) then 1 else 0
  }

  ghost function Hours(from: nat, n: nat): set<nat> { set h | from <= h < from + n :: Cell(h) }

  /** Cells written for the first n days. */
  ghost function Painted(p: Program, n: nat): set<nat>
    requires n <= 7
  {
    if n == 0 then {}
    else Painted(p, n - 1) + if Enabled(p, n - 1) then Hours(Begin(p, n - 1), Delta(p.start, p.end)) else {}
  }

  lemma {:induction false} HoursCount(from: nat, n: nat)
    requires n <= 24
    ensures |Hours(from, n)| == n
  {
    if n > 0 {
      HoursCount(from, n - 1);
      var last := from + n - 1;
      assert Hours(from, n) == Hours(from, n - 1) + {Cell(last)};
      forall h | from <= h < last ensures Cell(h) != Cell(last) { CellsDiffer(h, last); }
    } else {
      assert Hours(from, 0) == {};
    }
  }

  lemma CellsDiffer(a: nat, b: nat)
    requires a < b < a + WEEK
    ensures Cell(a) != Cell(b)
  {
  }

  lemma {:induction false} PaintedBefore(p: Program, n: nat, cell: nat)
    requires InDay(p) && n <= 7 && cell in Painted(p, n)
    ensures exists hour :: p.start <= hour < 24 * n + p.start && Cell(hour) == cell
  {
    if n > 0 { DayBounds(p, n - 1); }
    if n > 0 && cell !in Painted(p, n - 1) {
      var hour :| Begin(p, n - 1) <= hour < Begin(p, n - 1) + Delta(p.start, p.end) && Cell(hour) == cell;
      assert p.start <= hour < 24 * n + p.start;
    } else {
      PaintedBefore(p, n - 1, cell);
      var hour :| p.start <= hour < 24 * (n - 1) + p.start && Cell(hour) == cell;
      assert p.start <= hour < 24 * n + p.start;
    }
  }

  lemma TodayIsNew(p: Program, n: nat, cell: nat)
    requires InDay(p) && 0 < n <= 7 && cell in Hours(Begin(p, n - 1), Delta(p.start, p.end))
    ensures cell !in Painted(p, n - 1)
  {
    DayBounds(p, n - 1);
    var h :| Begin(p, n - 1) <= h < Begin(p, n - 1) + Delta(p.start, p.end) && Cell(h) == cell;
    if cell in Painted(p, n - 1) {
      PaintedBefore(p, n - 1, cell);
      var g :| p.start <= g < 24 * (n - 1) + p.start && Cell(g) == cell;
      CellsDiffer(g, h);
    }
  }

  lemma PaintedStep(p: Program, n: nat)
    requires InDay(p) && 0 < n <= 7 && Enabled(p, n - 1)
    ensures |Painted(p, n)| == |Painted(p, n - 1)| + Delta(p.start, p.end)
  {
    DayBounds(p, n - 1);
    var today := Hours(Begin(p, n - 1), Delta(p.start, p.end));
    HoursCount(Begin(p, n - 1), Delta(p.start, p.end));
    forall cell | cell in today ensures cell !in Painted(p, n - 1) { TodayIsNew(p, n, cell); }
    assert Painted(p, n - 1) !! today;
  }

  /** Days never overlap, so the cells of the enabled days add up. */
  lemma {:induction false} PaintedCount(p: Program, n: nat, length: nat)
    requires InDay(p) && n <= 7 && length == Delta(p.start, p.end)
    ensures |Painted(p, n)| == Repeated(length, EnabledDays(p, n))
  {
    if n > 0 {
      PaintedCount(p, n - 1, length);
      if Enabled(p, n - 1) { PaintedStep(p, n); }
    }
  }

  function Repeated(length: nat, days: nat): nat { if days == 0 then 0 else Repeated(length, days - 1) + length }

  lemma {:induction false} RepeatedIsProduct(length: nat, days: nat)
    ensures Repeated(length, days) == days * length
  {
    if days > 0 {
      RepeatedIsProduct(length, days - 1);
      assert days * length == (days - 1) * length + length;
    }
  }

  lemma HoursAreTouched(p: Program, day: nat, cell: nat)
    requires InDay(p) && day < 7
    ensures cell in Hours(Begin(p, day), Delta(p.start, p.end)) <==> Touches(p, day, cell)
  {
    DayBounds(p, day);
  }

  lemma {:induction false} PaintedIsTouched(p: Program, n: nat, cell: nat)
    requires InDay(p) && n <= 7
    ensures cell in Painted(p, n) <==> exists day :: 0 <= day < n && Enabled(p, day) && Touches(p, day, cell)
  {
    if n > 0 {
      PaintedIsTouched(p, n - 1, cell);
      HoursAreTouched(p, n - 1, cell);
    }
  }

  lemma CellsWritten(p: Program)
    requires InDay(p)
    ensures var cells := set c | 0 <= c < WEEK && Writes(p, c);
      |cells| == EnabledDays(p, 7) * ((p.end - p.start + 23) % 24 + 1)
  {
    DeltaMeans(p);
    var cells := set c | 0 <= c < WEEK && Writes(p, c);
    forall c: nat ensures c in Painted(p, 7) <==> Writes(p, c) { PaintedIsTouched(p, 7, c); }
    assert forall c: nat :: Writes(p, c) ==> c < WEEK;
    assert cells == Painted(p, 7);
    PaintedCount(p, 7, Delta(p.start, p.end));
    RepeatedIsProduct(Delta(p.start, p.end), EnabledDays(p, 7));
  }
}
