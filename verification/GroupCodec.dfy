/**
  The two encodings of a group (decimal text between chargers, packed bytes in flash) and
  the rebuilding of the table from the decoded entries.
 */
module GroupCodec {
  import opened Chargers
  import opened GroupTable

  const TEXT_BUFFER: nat := 500
  const FLASH_BUFFER: nat := 362
  const NAME: nat := 8

  /** A charger as both encodings carry it: its name and circuit * 4 + phase. */
  datatype Entry = Entry(id: string, value: nat)

  predicate ValidEntry(e: Entry) { |e.id| == NAME && e.value < 256 }

  function Pack(c: Charger): Entry { Entry(c.name, Byte(c.circuito * 4 + c.fase)) }

  function PackAll(rows: seq<Charger>): (r: seq<Entry>)
    ensures |r| == |rows| && forall i :: 0 <= i < |rows| ==> r[i] == Pack(rows[i])
  {
    seq(|rows|, i requires 0 <= i < |rows| => Pack(rows[i]))
  }

  predicate Encodable(c: Charger) { |c.name| == NAME && c.circuito < 64 && c.fase <= 3 }

  /** Packing loses nothing for circuits below 64 and phases up to 3. */
  lemma Unpack(c: Charger)
    requires Encodable(c)
    ensures ValidEntry(Pack(c)) && Pack(c).value % 4 == c.fase && Pack(c).value / 4 == c.circuito
  {
  }

  // ----- decimal digits

  function Digit(d: nat): (c: char)
    requires d < 10
  {
    ['0', '1', '2', '3', '4', '5', '6', '7', '8', '9'][d]
  }

  function DigitValue(c: char): (d: nat)
    ensures d < 10
  {
    if '0' <= c <= '9' then (c as int) - ('0' as int) else 0
  }

  /** The prefix of digits read as a number, like atoi on an unsigned field. */
  function Atoi(s: string): nat {
    AtoiFrom(s, 0)
  }

  function AtoiFrom(s: string, acc: nat): nat
    decreases |s|
  {
    if s == [] || !('0' <= s[0] <= '9') then acc else AtoiFrom(s[1..], acc * 10 + DigitValue(s[0]))
  }

  function Two(n: nat): (s: string)
    requires n < 100
    ensures |s| == 2
  {
    [Digit(n / 10), Digit(n % 10)]
  }

  function Three(n: nat): (s: string)
    requires n < 1000
    ensures |s| == 3
  {
    [Digit(n / 100), Digit(n / 10 % 10), Digit(n % 10)]
  }

  /** Reading one digit. */
  lemma AtoiDigit(d: nat, rest: string, acc: nat)
    requires d < 10
    ensures AtoiFrom([Digit(d)] + rest, acc) == AtoiFrom(rest, acc * 10 + d)
  {
    assert ([Digit(d)] + rest)[1..] == rest;
  }

  lemma TwoRoundTrip(n: nat)
    requires n < 100
    ensures Atoi(Two(n)) == n
  {
    AtoiDigit(n / 10, [Digit(n % 10)], 0);
    AtoiDigit(n % 10, [], n / 10);
    assert [Digit(n % 10)] == [Digit(n % 10)] + [];
    assert Two(n) == [Digit(n / 10)] + [Digit(n % 10)];
  }

  lemma ThreeDigits(a: nat, b: nat, c: nat)
    requires a < 10 && b < 10 && c < 10
    ensures Atoi([Digit(a), Digit(b), Digit(c)]) == 100 * a + 10 * b + c
  {
    AtoiDigit(a, [Digit(b), Digit(c)], 0);
    AtoiDigit(b, [Digit(c)], a);
    AtoiDigit(c, [], a * 10 + b);
    assert [Digit(c)] == [Digit(c)] + [] && [Digit(b), Digit(c)] == [Digit(b)] + [Digit(c)];
    assert [Digit(a), Digit(b), Digit(c)] == [Digit(a)] + [Digit(b), Digit(c)];
  }

  lemma ThreeRoundTrip(n: nat)
    requires n < 1000
    ensures Atoi(Three(n)) == n
  {
    var tens := n / 10;
    assert n == 10 * tens + n % 10 && tens == 10 * (tens / 10) + tens % 10 && n / 100 == tens / 10;
    ThreeDigits(n / 100, tens % 10, n % 10);
  }

  // ----- encodings

  function TextField(e: Entry): (s: string)
    requires ValidEntry(e)
    ensures |s| == 11
  {
    e.id + Three(e.value)
  }

  function FlashField(e: Entry): (s: string)
    requires ValidEntry(e)
    ensures |s| == 9
  {
    e.id + [e.value as char]
  }

  predicate AllValid(es: seq<Entry>) { forall e :: e in es ==> ValidEntry(e) }

  function TextBody(es: seq<Entry>): (s: string)
    requires AllValid(es)
    ensures |s| == 11 * |es|
  {
    if es == [] then "" else TextBody(es[..|es| - 1]) + TextField(es[|es| - 1])
  }

  function FlashBody(es: seq<Entry>): (s: string)
    requires AllValid(es)
    ensures |s| == 9 * |es|
  {
    if es == [] then "" else FlashBody(es[..|es| - 1]) + FlashField(es[|es| - 1])
  }

  function EncodeText(es: seq<Entry>): string
    requires AllValid(es) && |es| < 100
  {
    Two(|es|) + TextBody(es)
  }

  function EncodeFlash(es: seq<Entry>): string
    requires AllValid(es) && |es| < 100
  {
    Two(|es|) + FlashBody(es)
  }

  // ----- decoding

  function Announced(data: string): nat
    requires |data| >= 2
  {
    Byte(Atoi(data[..2]))
  }

  function TextEntry(data: string, i: nat): Entry
    requires 2 + 11 * (i + 1) <= |data|
  {
    Entry(data[2 + i * 11..10 + i * 11], Byte(Atoi(data[10 + i * 11..13 + i * 11])))
  }

  function FlashEntry(data: string, i: nat): Entry
    requires 2 + 9 * (i + 1) <= |data|
  {
    Entry(data[2 + i * 9..10 + i * 9], Byte(data[10 + i * 9] as int))
  }

  predicate TextComplete(data: string) { |data| >= 2 && |data| >= 2 + 11 * Announced(data) }

  predicate FlashComplete(data: string) { |data| >= 2 && |data| >= 2 + 9 * Announced(data) }

  function DecodeText(data: string): (es: seq<Entry>)
    requires TextComplete(data)
  {
    seq(Announced(data), i requires 0 <= i < Announced(data) => TextEntry(data, i))
  }

  function DecodeFlash(data: string): (es: seq<Entry>)
    requires FlashComplete(data)
  {
    seq(Announced(data), i requires 0 <= i < Announced(data) => FlashEntry(data, i))
  }

  lemma {:induction false} TextBodyAt(es: seq<Entry>, i: nat)
    requires AllValid(es) && i < |es|
    ensures TextBody(es)[11 * i..11 * i + 11] == TextField(es[i])
  {
    var n := |es| - 1;
    if i < n {
      TextBodyAt(es[..n], i);
      assert TextBody(es)[..11 * n] == TextBody(es[..n]);
      assert TextBody(es)[11 * i..11 * i + 11] == TextBody(es[..n])[11 * i..11 * i + 11];
    }
  }

  lemma {:induction false} FlashBodyAt(es: seq<Entry>, i: nat)
    requires AllValid(es) && i < |es|
    ensures FlashBody(es)[9 * i..9 * i + 9] == FlashField(es[i])
  {
    var n := |es| - 1;
    if i < n {
      FlashBodyAt(es[..n], i);
      assert FlashBody(es)[..9 * n] == FlashBody(es[..n]);
      assert FlashBody(es)[9 * i..9 * i + 9] == FlashBody(es[..n])[9 * i..9 * i + 9];
    }
  }

  lemma TextEntryAt(e: Entry, body: string, data: string, i: nat)
    requires ValidEntry(e) && 11 * i + 11 <= |body| && body[11 * i..11 * i + 11] == TextField(e)
    requires |data| >= 2 + |body| && data[2..2 + |body|] == body
    ensures TextEntry(data, i) == e
  {
    Window(data, body, TextField(e), 11 * i, 0, 8);
    Window(data, body, TextField(e), 11 * i, 8, 11);
    TextFieldParts(e);
  }

  lemma TextFieldParts(e: Entry)
    requires ValidEntry(e)
    ensures TextField(e)[0..8] == e.id && Atoi(TextField(e)[8..11]) == e.value
  {
    assert TextField(e)[8..11] == Three(e.value);
    ThreeRoundTrip(e.value);
  }

  lemma Window(data: string, body: string, field: string, at: nat, lo: nat, hi: nat)
    requires |data| >= 2 + |body| && data[2..2 + |body|] == body
    requires at + |field| <= |body| && body[at..at + |field|] == field && lo <= hi <= |field|
    ensures data[2 + at + lo..2 + at + hi] == field[lo..hi]
  {
    forall k | lo <= k < hi ensures data[2 + at + k] == field[k] {
      assert data[2..2 + |body|][at + k] == body[at..at + |field|][k];
    }
  }

  lemma Header(data: string, n: nat)
    requires n < 100 && |data| >= 2 && data[..2] == Two(n)
    ensures Announced(data) == n
  {
    TwoRoundTrip(n);
  }

  /** Data that starts with the text form of the entries decodes to them. */
  lemma {:induction false} TextRead(es: seq<Entry>, body: string, data: string)
    requires AllValid(es) && |es| < 100 && body == TextBody(es)
    requires |data| >= 2 + |body| && data[..2] == Two(|es|) && data[2..2 + |body|] == body
    ensures TextComplete(data) && DecodeText(data) == es
  {
    Header(data, |es|);
    forall i: nat | i < |es| ensures TextEntry(data, i) == es[i] {
      TextReadAt(es, body, data, i);
    }
  }

  lemma TextReadAt(es: seq<Entry>, body: string, data: string, i: nat)
    requires AllValid(es) && i < |es| && body == TextBody(es)
    requires |data| >= 2 + |body| && data[2..2 + |body|] == body
    ensures TextEntry(data, i) == es[i]
  {
    assert es[i] in es;
    TextBodyAt(es, i);
    TextEntryAt(es[i], body, data, i);
  }

  /** Whatever follows the text in its buffer, decoding gives back the entries. */
  lemma TextRoundTrip(es: seq<Entry>, rest: string)
    requires AllValid(es) && |es| < 100
    ensures TextComplete(EncodeText(es) + rest) && DecodeText(EncodeText(es) + rest) == es
  {
    TextRead(es, TextBody(es), EncodeText(es) + rest);
  }

  lemma FlashEntryAt(e: Entry, body: string, data: string, i: nat)
    requires ValidEntry(e) && 9 * i + 9 <= |body| && body[9 * i..9 * i + 9] == FlashField(e)
    requires |data| >= 2 + |body| && data[2..2 + |body|] == body
    ensures FlashEntry(data, i) == e
  {
    var field := FlashField(e);
    Window(data, body, field, 9 * i, 0, 8);
    Window(data, body, field, 9 * i, 8, 9);
    assert field[0..8] == e.id && field[8..9] == [e.value as char];
    assert data[10 + i * 9] == data[10 + i * 9..11 + i * 9][0];
  }

  lemma {:induction false} FlashRead(es: seq<Entry>, body: string, data: string)
    requires AllValid(es) && |es| < 100 && body == FlashBody(es)
    requires |data| >= 2 + |body| && data[..2] == Two(|es|) && data[2..2 + |body|] == body
    ensures FlashComplete(data) && DecodeFlash(data) == es
  {
    Header(data, |es|);
    forall i: nat | i < |es| ensures FlashEntry(data, i) == es[i] {
      FlashReadAt(es, body, data, i);
    }
  }

  lemma FlashReadAt(es: seq<Entry>, body: string, data: string, i: nat)
    requires AllValid(es) && i < |es| && body == FlashBody(es)
    requires |data| >= 2 + |body| && data[2..2 + |body|] == body
    ensures FlashEntry(data, i) == es[i]
  {
    assert es[i] in es;
    FlashBodyAt(es, i);
    FlashEntryAt(es[i], body, data, i);
  }

  lemma FlashRoundTrip(es: seq<Entry>, rest: string)
    requires AllValid(es) && |es| < 100
    ensures FlashComplete(EncodeFlash(es) + rest) && DecodeFlash(EncodeFlash(es) + rest) == es
  {
    FlashRead(es, FlashBody(es), EncodeFlash(es) + rest);
  }

  lemma DigitCode(d: nat)
    requires d < 10
    ensures Digit(d) as int == 48 + d
  {
  }

  lemma ThreeCodes(n: nat)
    requires n < 1000
    ensures var s := Three(n);
      s[0] as int == 48 + n / 100 && s[1] as int == 48 + n / 10 % 10 && s[2] as int == 48 + n % 10
  {
    DigitCode(n / 100);
    DigitCode(n / 10 % 10);
    DigitCode(n % 10);
  }

  lemma TextFieldCodes(e: Entry)
    requires ValidEntry(e)
    ensures var s, v := TextField(e), e.value;
      && s[..8] == e.id
      && s[8] as int == 48 + v / 100 && s[9] as int == 48 + v / 10 % 10 && s[10] as int == 48 + v % 10
  {
    ThreeCodes(e.value);
    var s, t := TextField(e), Three(e.value);
    assert s[8] == t[0] && s[9] == t[1] && s[10] == t[2];
  }

  /** The text itself: the number of chargers in two digits, then for each its name and three digits. */
  lemma TextFormat(es: seq<Entry>, i: nat)
    requires AllValid(es) && i < |es| < 100
    ensures var s, at, v := EncodeText(es), 2 + 11 * i, es[i].value;
      && |s| == 2 + 11 * |es|
      && s[0] as int == 48 + |es| / 10 && s[1] as int == 48 + |es| % 10
      && s[at..at + 8] == es[i].id
      && s[at + 8] as int == 48 + v / 100 && s[at + 9] as int == 48 + v / 10 % 10 && s[at + 10] as int == 48 + v % 10
  {
    assert es[i] in es;
    DigitCode(|es| / 10);
    DigitCode(|es| % 10);
    TextBodyAt(es, i);
    TextFieldCodes(es[i]);
    FieldAt(EncodeText(es), TextBody(es), TextField(es[i]), 11 * i);
  }

  /** The flash image itself: the same count, then for each charger its name and one byte. */
  lemma FlashFormat(es: seq<Entry>, i: nat)
    requires AllValid(es) && i < |es| < 100
    ensures var s, at := EncodeFlash(es), 2 + 9 * i;
      && |s| == 2 + 9 * |es|
      && s[0] as int == 48 + |es| / 10 && s[1] as int == 48 + |es| % 10
      && s[at..at + 8] == es[i].id && s[at + 8] as int == es[i].value
  {
    assert es[i] in es;
    FlashBodyAt(es, i);
    FieldAt(EncodeFlash(es), FlashBody(es), FlashField(es[i]), 9 * i);
  }

  lemma FieldAt(s: string, body: string, field: string, at: nat)
    requires |s| == 2 + |body| && s[2..] == body && at + |field| <= |body| && body[at..at + |field|] == field
    requires |field| >= 8
    ensures s[2 + at..2 + at + 8] == field[..8]
    ensures forall k :: 0 <= k < |field| ==> s[2 + at + k] == field[k]
  {
    forall k | 0 <= k < |field| ensures s[2 + at + k] == field[k] { assert body[at + k] == field[k]; }
  }

  // ----- filling the buffers

  /** The buffer after the header of a group of n and the first i entries. */
  function TextSoFar(n: nat, es: seq<Entry>, i: nat): (s: string)
    requires n < 100 && i <= |es| && AllValid(es)
    ensures |s| == 2 + 11 * i
  {
    Two(n) + TextBody(es[..i])
  }

  lemma TextStep(n: nat, es: seq<Entry>, i: nat)
    requires n < 100 && AllValid(es) && i < |es|
    ensures TextSoFar(n, es, i + 1) == TextSoFar(n, es, i) + TextField(es[i])
  {
    assert es[..i + 1][..i] == es[..i];
  }

  /** The buffer after the header of a group of n and the first i entries. */
  function FlashSoFar(n: nat, es: seq<Entry>, i: nat): (s: string)
    requires n < 100 && i <= |es| && AllValid(es)
    ensures |s| == 2 + 9 * i
  {
    Two(n) + FlashBody(es[..i])
  }

  lemma FlashStep(n: nat, es: seq<Entry>, i: nat)
    requires n < 100 && AllValid(es) && i < |es|
    ensures FlashSoFar(n, es, i + 1) == FlashSoFar(n, es, i) + FlashField(es[i])
  {
    assert es[..i + 1][..i] == es[..i];
  }

  /** Copies `s` into the buffer at `at`, as memcpy and sprintf do. */
  method CopyInto(buffer: array<char>, at: nat, s: string)
    requires at + |s| <= buffer.Length
    modifies buffer
    ensures buffer[..at] == old(buffer[..at])
    ensures buffer[..at + |s|] == old(buffer[..at]) + s
    ensures forall k :: at + |s| <= k < buffer.Length ==> buffer[k] == old(buffer[k])
  {
    for j := 0 to |s|
      invariant forall k :: 0 <= k < at ==> buffer[k] == old(buffer[k])
      invariant forall k :: 0 <= k < j ==> buffer[at + k] == s[k]
      invariant forall k :: at + j <= k < buffer.Length ==> buffer[k] == old(buffer[k])
    {
      buffer[at + j] := s[j];
    }
  }

  method PutText(buffer: array<char>, at: nat, c: Charger)
    requires at + 11 <= buffer.Length && |c.name| == NAME
    modifies buffer
    ensures buffer[..at + 11] == old(buffer[..at]) + TextField(Pack(c))
  {
    var value := Byte(c.circuito * 4 + c.fase);
    CopyInto(buffer, at, c.name);
    CopyInto(buffer, at + 8, Three(value));
  }

  method PutFlash(buffer: array<char>, at: nat, c: Charger)
    requires at + 9 <= buffer.Length && |c.name| == NAME
    modifies buffer
    ensures buffer[..at + 9] == old(buffer[..at]) + FlashField(Pack(c))
  {
    var value := Byte(c.circuito * 4 + c.fase);
    CopyInto(buffer, at, c.name);
    CopyInto(buffer, at + 8, [value as char]);
  }

  /** The text sent to another charger always fits its buffer of 500 characters. */
  method SendChargers(rows: seq<Charger>, buffer: array<char>)
    requires |rows| <= MAX_GROUP_SIZE && buffer.Length == TEXT_BUFFER
    requires forall i :: 0 <= i < |rows| ==> |rows[i].name| == NAME
    modifies buffer
    ensures AllValid(PackAll(rows))
    ensures buffer[..2 + 11 * |rows|] == EncodeText(PackAll(rows))
  {
    ghost var es := PackAll(rows);
    CopyInto(buffer, 0, Two(|rows|));
    for i := 0 to |rows|
      invariant buffer[..2 + 11 * i] == TextSoFar(|rows|, es, i)
    {
      TextStep(|rows|, es, i);
      PutText(buffer, 2 + i * 11, rows[i]);
    }
    assert es[..|rows|] == es;
  }

  /**
    The flash image.  Up to 40 chargers fit, but the terminator of the fortieth lies past the buffer:
    `overrun` tells that the program writes there.
   */
  method StoreGroup(rows: seq<Charger>, buffer: array<char>) returns (overrun: bool)
    requires |rows| <= MAX_GROUP_SIZE && buffer.Length == FLASH_BUFFER
    requires forall i :: 0 <= i < |rows| ==> |rows[i].name| == NAME
    modifies buffer
    ensures AllValid(PackAll(rows))
    ensures buffer[..2 + 9 * |rows|] == EncodeFlash(PackAll(rows))
    ensures overrun <==> |rows| == MAX_GROUP_SIZE
  {
    FillFlash(rows, buffer);
    overrun := Terminate(|rows|, buffer);
  }

  method FillFlash(rows: seq<Charger>, buffer: array<char>)
    requires |rows| <= MAX_GROUP_SIZE && buffer.Length == FLASH_BUFFER
    requires (forall i :: 0 <= i < |rows| ==> |rows[i].name| == NAME) && AllValid(PackAll(rows))
    modifies buffer
    ensures buffer[..2 + 9 * |rows|] == EncodeFlash(PackAll(rows))
  {
    ghost var es := PackAll(rows);
    CopyInto(buffer, 0, Two(|rows|));
    for i := 0 to |rows|
      invariant buffer[..2 + 9 * i] == FlashSoFar(|rows|, es, i)
    {
      FlashStep(|rows|, es, i);
      PutFlash(buffer, 2 + i * 9, rows[i]);
    }
    assert es[..|rows|] == es;
  }

  /** The end of the flash image: a terminator, or the mark of an empty group. */
  method Terminate(size: nat, buffer: array<char>) returns (overrun: bool)
    requires size <= MAX_GROUP_SIZE && buffer.Length == FLASH_BUFFER && (size == 0 ==> buffer[..2] == Two(0))
    modifies buffer
    ensures buffer[..2 + 9 * size] == old(buffer[..2 + 9 * size])
    ensures overrun <==> size == MAX_GROUP_SIZE
  {
    overrun := false;
    if size > 0 {
      overrun := 2 + size * 9 >= buffer.Length;
      if !overrun { buffer[2 + size * 9] := '\0'; }
    } else {
      forall k | 0 <= k < buffer.Length { buffer[k] := '\0'; }
      CopyInto(buffer, 0, "00_CLEAN_");
      buffer[8] := '\0';
      assert Two(0) == "00";
    }
  }

  // ----- rebuilding the table

  /** The fields a charger keeps when a new group arrives that still contains it. */
  function Carry(c: Charger, was: Charger): Charger {
    c.(hpt := was.hpt, current := was.current, currentB := was.currentB, currentC := was.currentC,
       delta := was.delta, consigna := was.consigna, deltaTimer := was.deltaTimer)
  }

  /** Effect of one entry on row i of the table, `known` being the table before the message. */
  function Filled(c: Charger, e: Entry, known: seq<Charger>, me: string): Charger
    requires |known| <= MAX_GROUP_SIZE
  {
    var placed := c.(fase := e.value % 4, circuito := e.value / 4);
    var j := Find(known, |known|, e.id);
    var carried := if j != ABSENT then Carry(placed, known[j]) else placed;
    if e.id == me then carried.(conected := true) else carried
  }

  /** The table after the first n entries. */
  function Rebuilt(rows: seq<Charger>, known: seq<Charger>, es: seq<Entry>, n: nat, me: string, ip: string -> nat)
    : (r: (seq<Charger>, nat))
    requires |rows| == MAX_GROUP_SIZE && |known| <= MAX_GROUP_SIZE && n <= |es| <= MAX_GROUP_SIZE
    ensures |r.0| == MAX_GROUP_SIZE && r.1 <= n && Distinct(r.0, r.1)
  {
    if n == 0 then (rows, 0)
    else
      var (before, size) := Rebuilt(rows, known, es, n - 1, me, ip);
      var e := es[n - 1];
      var added := Added(before, size, e.id, ip(e.id));
      var size' := if CanAdd(before, size, e.id) then size + 1 else size;
      (added[n - 1 := Filled(added[n - 1], e, known, me)], size')
  }

  predicate DistinctIds(es: seq<Entry>) { forall i, j :: 0 <= i < j < |es| ==> es[i].id != es[j].id }

  /** A row as a message describes it: named and placed by the entry, otherwise new or as it was. */
  predicate Describes(c: Charger, e: Entry, known: seq<Charger>, me: string)
    requires |known| <= MAX_GROUP_SIZE
  {
    && c.name == e.id && c.fase == e.value % 4 && c.circuito == e.value / 4 && c.conected == (e.id == me)
    && var j := Find(known, |known|, e.id);
       if j != ABSENT then SameMeasures(c, known[j])
       else c.hpt == Unknown && c.current == 0 && c.delta == 0 && c.deltaTimer == 0 && c.consigna == 0
  }

  /** The first n rows are as the first n entries describe them. */
  predicate DescribesAll(r: seq<Charger>, es: seq<Entry>, n: nat, known: seq<Charger>, me: string)
    requires |known| <= MAX_GROUP_SIZE && n <= |es|
  {
    n <= |r| && forall i :: 0 <= i < n ==> Describes(r[i], es[i], known, me)
  }

  /** A group without repeated names is rebuilt row by row in the order of the message. */
  lemma {:induction false} RebuiltDescribes(rows: seq<Charger>, known: seq<Charger>, es: seq<Entry>, n: nat, me: string,
                                            ip: string -> nat)
    requires |rows| == MAX_GROUP_SIZE && |known| <= MAX_GROUP_SIZE && n <= |es| <= MAX_GROUP_SIZE
    requires DistinctIds(es)
    ensures var (r, size) := Rebuilt(rows, known, es, n, me, ip);
      size == n && DescribesAll(r, es, n, known, me)
  {
    if n > 0 {
      RebuiltDescribes(rows, known, es, n - 1, me, ip);
      var (before, size) := Rebuilt(rows, known, es, n - 1, me, ip);
      var e := es[n - 1];
      var c := Added(before, size, e.id, ip(e.id))[n - 1];
      assert CanAdd(before, size, e.id);
      FilledDescribes(c, before[n - 1], e, known, me, ip(e.id));
    }
  }

  /** A fresh row that an entry fills is as the entry describes it. */
  lemma FilledDescribes(c: Charger, was: Charger, e: Entry, known: seq<Charger>, me: string, ip: nat)
    requires |known| <= MAX_GROUP_SIZE && c == Fresh(was, e.id, ip)
    ensures Describes(Filled(c, e, known, me), e, known, me)
  {
  }

  method NewGroup(group: array<Charger>, size: nat, data: string, me: string, ip: string -> nat) returns (size': nat)
    requires size <= group.Length == MAX_GROUP_SIZE
    requires TextComplete(data) && Announced(data) <= MAX_GROUP_SIZE
    modifies group
    ensures var es := DecodeText(data);
      (group[..], size') == Rebuilt(old(group[..]), old(group[..size]), es, |es|, me, ip)
  {
    var es := DecodeText(data);
    size' := RebuildTable(group, size, es, me, ip);
  }

  method LoadGroup(group: array<Charger>, size: nat, data: string, me: string, ip: string -> nat) returns (size': nat)
    requires size <= group.Length == MAX_GROUP_SIZE
    requires FlashComplete(data) && Announced(data) <= MAX_GROUP_SIZE
    modifies group
    ensures var es := DecodeFlash(data);
      (group[..], size') == Rebuilt(old(group[..]), old(group[..size]), es, |es|, me, ip)
  {
    var es := DecodeFlash(data);
    size' := RebuildTable(group, size, es, me, ip);
  }

  method FillRow(group: array<Charger>, i: nat, e: Entry, known: seq<Charger>, me: string)
    requires i < group.Length && |known| <= MAX_GROUP_SIZE
    modifies group
    ensures group[..] == old(group[..])[i := Filled(old(group[i]), e, known, me)]
  {
    group[i] := group[i].(fase := e.value % 4, circuito := e.value / 4);
    var j := Find(known, |known|, e.id);
    if j != ABSENT {
      group[i] := Carry(group[i], known[j]);
    }
    if e.id == me {
      group[i] := group[i].(conected := true);
    }
  }

  /** One entry: add the charger, place it, and carry over what was known of it. */
  method AddEntry(group: array<Charger>, size: nat, i: nat, e: Entry, known: seq<Charger>, me: string, ip: nat)
    returns (size': nat)
    requires size <= i < group.Length == MAX_GROUP_SIZE && |known| <= MAX_GROUP_SIZE
    modifies group
    ensures var added := Added(old(group[..]), size, e.id, ip);
      group[..] == added[i := Filled(added[i], e, known, me)]
    ensures size' == if CanAdd(old(group[..]), size, e.id) then size + 1 else size
  {
    var ok;
    ok, size' := AddToGroup(e.id, ip, group, size);
    FillRow(group, i, e, known, me);
  }

  /** The loop that both readers share. */
  method RebuildTable(group: array<Charger>, size: nat, es: seq<Entry>, me: string, ip: string -> nat)
    returns (size': nat)
    requires size <= group.Length == MAX_GROUP_SIZE && |es| <= MAX_GROUP_SIZE
    modifies group
    ensures (group[..], size') == Rebuilt(old(group[..]), old(group[..size]), es, |es|, me, ip)
  {
    var known := group[..size];
    ghost var rows := group[..];
    size' := 0;
    for i := 0 to |es|
      invariant size' <= i
      invariant group[..] == Rebuilt(rows, known, es, i, me, ip).0 && size' == Rebuilt(rows, known, es, i, me, ip).1
    {
      size' := AddEntry(group, size', i, es[i], known, me, ip(es[i].id));
    }
  }

  // ----- both round trips, end to end

  predicate EncodableGroup(rows: seq<Charger>) {
    && (forall c :: c in rows ==> Encodable(c))
    && Distinct(rows, |rows|)
  }

  /** Same names, phases and circuits as `source`; known chargers keep their measurements. */
  predicate SameGroup(source: seq<Charger>, known: seq<Charger>, r: seq<Charger>, size: nat)
    requires |known| <= MAX_GROUP_SIZE
  {
    && size == |source| <= |r|
    && forall i :: 0 <= i < size ==>
         && Place(r[i]) == Place(source[i])
         && var j := Find(known, |known|, source[i].name);
            j != ABSENT ==> SameMeasures(r[i], known[j])
  }

  lemma RebuiltIsSame(source: seq<Charger>, rows: seq<Charger>, known: seq<Charger>, me: string, ip: string -> nat)
    requires EncodableGroup(source) && |source| <= MAX_GROUP_SIZE && |rows| == MAX_GROUP_SIZE
    requires |known| <= MAX_GROUP_SIZE
    ensures var (r, size) := Rebuilt(rows, known, PackAll(source), |source|, me, ip);
      SameGroup(source, known, r, size)
  {
    var es := PackAll(source);
    forall i | 0 <= i < |source| ensures es[i].value % 4 == source[i].fase && es[i].value / 4 == source[i].circuito {
      Unpack(source[i]);
    }
    RebuiltDescribes(rows, known, es, |es|, me, ip);
  }

  /** What one charger sends, another rebuilds (up to 40 chargers). */
  lemma TextGroupRoundTrip(source: seq<Charger>, rest: string, rows: seq<Charger>, known: seq<Charger>, me: string,
                           ip: string -> nat)
    requires EncodableGroup(source) && |source| <= MAX_GROUP_SIZE && |rows| == MAX_GROUP_SIZE
    requires |known| <= MAX_GROUP_SIZE
    ensures AllValid(PackAll(source))
    ensures var data := EncodeText(PackAll(source)) + rest;
      && TextComplete(data)
      && DecodeText(data) == PackAll(source)
      && var (r, size) := Rebuilt(rows, known, DecodeText(data), |source|, me, ip); SameGroup(source, known, r, size)
  {
    forall c | c in source ensures ValidEntry(Pack(c)) { Unpack(c); }
    TextRoundTrip(PackAll(source), rest);
    RebuiltIsSame(source, rows, known, me, ip);
  }

  /** What is stored in flash is loaded again. */
  lemma FlashGroupRoundTrip(source: seq<Charger>, rest: string, rows: seq<Charger>, known: seq<Charger>, me: string,
                            ip: string -> nat)
    requires EncodableGroup(source) && |source| <= MAX_GROUP_SIZE && |rows| == MAX_GROUP_SIZE
    requires |known| <= MAX_GROUP_SIZE
    ensures AllValid(PackAll(source))
    ensures var data := EncodeFlash(PackAll(source)) + rest;
      && FlashComplete(data)
      && DecodeFlash(data) == PackAll(source)
      && var (r, size) := Rebuilt(rows, known, DecodeFlash(data), |source|, me, ip); SameGroup(source, known, r, size)
  {
    forall c | c in source ensures ValidEntry(Pack(c)) { Unpack(c); }
    FlashRoundTrip(PackAll(source), rest);
    RebuiltIsSame(source, rows, known, me, ip);
  }
}
