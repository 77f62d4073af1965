/**
  The serial link to the power board: the encoder, and the receiving
  automaton that is polled with however many bytes happen to have arrived.
 */
module Uart {

  newtype byte = x: int | 0 <= x < 256

  const HEADER: byte := 58  // ':'
  const BUFFER: nat := 256

  datatype Frame = Frame(handle: nat, payload: seq<byte>)

  predicate ValidFrame(f: Frame) { f.handle < 65536 && 1 <= |f.payload| <= BUFFER }

  /** Header, handle (high byte first), length modulo 256, payload. */
  function Encode(f: Frame): (r: seq<byte>)
    requires f.handle < 65536
    ensures |r| == 4 + |f.payload|
  {
    [HEADER, (f.handle / 256) as byte, (f.handle % 256) as byte, (|f.payload| % 256) as byte] + f.payload
  }

  /** The bytes on the wire: a colon, the handle in two bytes, the length modulo 256, then the payload. */
  lemma WireFormat(f: Frame)
    requires f.handle < 65536
    ensures var e := Encode(f);
      && |e| == |f.payload| + 4
      && e[0] as int as char == ':'
      && 256 * (e[1] as int) + e[2] as int == f.handle
      && e[3] as int == |f.payload| % 256
      && e[4..] == f.payload
  {
    assert f.handle == 256 * (f.handle / 256) + f.handle % 256;
  }

  // ----- the byte-at-a-time parser

  datatype Parser =
    | Header
    | Kind
    | KindLow(high: byte)
    | Length(kind: nat)
    | Body(kind: nat, missing: nat, got: seq<byte>)

  function Advance(p: Parser, b: byte): (r: (Parser, seq<Frame>)) {
    match p
    case Header => (if b == HEADER then Kind else Header, [])
    case Kind => (KindLow(b), [])
    case KindLow(high) => (Length(256 * high as nat + b as nat), [])
    case Length(kind) => (Body(kind, if b == 0 then 256 else b as nat, []), [])
    case Body(kind, missing, got) =>
      if missing <= 1 then (Header, [Frame(kind, got + [b])]) else (Body(kind, missing - 1, got + [b]), [])
  }

  function Feed(p: Parser, bytes: seq<byte>): (r: (Parser, seq<Frame>))
    decreases |bytes|
  {
    if bytes == [] then (p, [])
    else
      var (q, fs) := Advance(p, bytes[0]);
      var (last, more) := Feed(q, bytes[1..]);
      (last, fs + more)
  }

  lemma {:induction false} FeedConcat(p: Parser, a: seq<byte>, b: seq<byte>)
    ensures var (mid, fs) := Feed(p, a);
            var (last, more) := Feed(mid, b);
            Feed(p, a + b) == (last, fs + more)
    decreases |a|
  {
    if a == [] {
      assert a + b == b;
      assert [] + Feed(p, b).1 == Feed(p, b).1;
    } else {
      var (q, fs) := Advance(p, a[0]);
      FeedConcat(q, a[1..], b);
      assert (a + b)[1..] == a[1..] + b;
      var (mid, fs') := Feed(q, a[1..]);
      assert fs + (fs' + Feed(mid, b).1) == (fs + fs') + Feed(mid, b).1;
    }
  }

  lemma NoFrames(fs: seq<Frame>)
    ensures [] + fs == fs
  {
  }

  lemma FeedOne(p: Parser, b: byte)
    ensures Feed(p, [b]) == Advance(p, b)
  {
    var (q, fs) := Advance(p, b);
    assert [b][1..] == [];
    assert fs + [] == fs;
  }

  // ----- frames come back out

  lemma {:induction false} FeedBody(kind: nat, got: seq<byte>, rest: seq<byte>)
    requires rest != []
    ensures Feed(Body(kind, |rest|, got), rest) == (Header, [Frame(kind, got + rest)])
    decreases |rest|
  {
    if |rest| == 1 {
      assert rest == [rest[0]];
      FeedOne(Body(kind, 1, got), rest[0]);
    } else {
      FeedBody(kind, got + [rest[0]], rest[1..]);
      NoFrames(Feed(Body(kind, |rest| - 1, got + [rest[0]]), rest[1..]).1);
      assert got + [rest[0]] + rest[1..] == got + rest;
    }
  }

  /** The four bytes before the payload leave the parser waiting for as many bytes as the fourth says. */
  lemma HeadIsParsed(handle: nat, len: byte, rest: seq<byte>)
    requires handle < 65536
    ensures Feed(Header, [HEADER, (handle / 256) as byte, (handle % 256) as byte, len] + rest)
         == Feed(Body(handle, if len == 0 then 256 else len as nat, []), rest)
  {
    var hi, lo := (handle / 256) as byte, (handle % 256) as byte;
    var body := Body(handle, if len == 0 then 256 else len as nat, []);
    assert handle == 256 * (hi as nat) + lo as nat;
    FeedOne(Header, HEADER);
    FeedOne(Kind, hi);
    FeedOne(KindLow(hi), lo);
    FeedOne(Length(handle), len);
    FeedConcat(Length(handle), [len], rest);
    FeedConcat(KindLow(hi), [lo], [len] + rest);
    FeedConcat(Kind, [hi], [lo] + ([len] + rest));
    FeedConcat(Header, [HEADER], [hi] + ([lo] + ([len] + rest)));
    assert [HEADER, hi, lo, len] + rest == [HEADER] + ([hi] + ([lo] + ([len] + rest)));
    NoFrames(Feed(body, rest).1);
  }

  lemma FrameIsParsed(f: Frame)
    requires ValidFrame(f)
    ensures Feed(Header, Encode(f)) == (Header, [f])
  {
    HeadIsParsed(f.handle, (|f.payload| % 256) as byte, f.payload);
    FeedBody(f.handle, [], f.payload);
    assert [] + f.payload == f.payload;
  }

  /** The encoder takes any length, but exactly frames of 1 to 256 bytes come back out. */
  lemma FrameIsParsedIff(f: Frame)
    requires f.handle < 65536
    ensures Feed(Header, Encode(f)) == (Header, [f]) <==> ValidFrame(f)
  {
    var len := (|f.payload| % 256) as byte;
    var n := if len == 0 then 256 else len as nat;
    if ValidFrame(f) {
      FrameIsParsed(f);
    } else {
      HeadIsParsed(f.handle, len, f.payload);
      if f.payload != [] {
        var head, tail := f.payload[..n], f.payload[n..];
        assert f.payload == head + tail;
        FeedBody(f.handle, [], head);
        FeedConcat(Body(f.handle, n, []), head, tail);
        assert [] + head == head;
        assert ([Frame(f.handle, head)] + Feed(Header, tail).1)[0] == Frame(f.handle, head);
      }
    }
  }

  lemma {:induction false} GapIsSkipped(gap: seq<byte>)
    requires HEADER !in gap
    ensures Feed(Header, gap) == (Header, [])
    decreases |gap|
  {
    if gap != [] {
      assert gap[0] in gap;
      assert forall b :: b in gap[1..] ==> b in gap;
      GapIsSkipped(gap[1..]);
      NoFrames([]);
    }
  }

  /** A stream of frames, each preceded by filler; the sender adds one filler byte after each. */
  function Stream(gaps: seq<seq<byte>>, frames: seq<Frame>): seq<byte>
    requires |gaps| == |frames| + 1 && forall f :: f in frames ==> ValidFrame(f)
  {
    if frames == [] then gaps[0]
    else
      assert ValidFrame(frames[0]);
      gaps[0] + Encode(frames[0]) + Stream(gaps[1..], frames[1..])
  }

  /** The parser hands on exactly the frames of the stream, in order. */
  lemma {:induction false} StreamIsParsed(gaps: seq<seq<byte>>, frames: seq<Frame>)
    requires |gaps| == |frames| + 1 && (forall f :: f in frames ==> ValidFrame(f))
    requires forall g :: g in gaps ==> HEADER !in g
    ensures Feed(Header, Stream(gaps, frames)) == (Header, frames)
    decreases |frames|
  {
    assert gaps[0] in gaps;
    GapIsSkipped(gaps[0]);
    if frames != [] {
      var rest := Stream(gaps[1..], frames[1..]);
      FrameIsParsed(frames[0]);
      StreamIsParsed(gaps[1..], frames[1..]);
      FeedConcat(Header, gaps[0], Encode(frames[0]));
      FeedConcat(Header, gaps[0] + Encode(frames[0]), rest);
      assert frames == [frames[0]] + frames[1..];
      assert [] + [frames[0]] == [frames[0]];
    }
  }

  // ----- the polled automaton

  datatype Estado = EsperandoHeader | EsperandoTipo | EsperandoLongitud | RecibiendoBloque

  /** A stream that ends between frames never stops after the first byte of a type. */
  lemma NotStuck(p: Parser, rest: seq<byte>)
    requires rest != [] && Feed(p, rest).0 == Header
    ensures p == Kind ==> |rest| > 1
  {
    if |rest| == 1 {
      assert rest == [rest[0]];
      FeedOne(p, rest[0]);
    }
  }

  lemma Regroup(read: seq<byte>, left: seq<byte>, more: seq<byte>, used: nat)
    requires used <= |left| + |more|
    ensures (read + (left + more)[..used]) + (left + more)[used..] == (read + left) + more
  {
    assert left + more == (left + more)[..used] + (left + more)[used..];
  }

  class Receiver {
    const buffer: array<byte>
    var estado: Estado
    var puntero: nat
    var longitud: nat
    var tipo: nat

    /** The write index stays inside the buffer for as many bytes as are still to come. */
    ghost predicate Valid()
      reads this
    {
      && buffer.Length == BUFFER
      && (estado.RecibiendoBloque? ==> 0 < longitud && puntero + longitud <= BUFFER)
    }

    /** The parser state that the automaton represents between polls. */
    ghost function Abstract(): Parser
      reads this, buffer
      requires Valid()
    {
      match estado
      case EsperandoHeader => Header
      case EsperandoTipo => Kind
      case EsperandoLongitud => Length(tipo)
      case RecibiendoBloque => Body(tipo, longitud, buffer[..puntero])
    }

    constructor ()
      ensures Valid() && Abstract() == Header && fresh(buffer)
    {
      buffer := new byte[BUFFER](_ => 0);
      estado, puntero, longitud, tipo := EsperandoHeader, 0, 0, 0;
    }

    /** Nothing arrived for a while: the block under way is dropped. */
    method Timeout()
      requires Valid()
      modifies this
      ensures Valid() && Abstract() == Header
    {
      puntero, estado := 0, EsperandoHeader;
    }

    /** Bytes of the block, up to its end or to the end of what has arrived. */
    method ReceiveBlock(input: seq<byte>) returns (used: nat, out: seq<Frame>)
      requires Valid() && estado.RecibiendoBloque? && input != []
      modifies this, buffer
      ensures Valid() && 0 < used <= |input| && used == if |input| < old(longitud) then |input| else old(longitud)
      ensures (Abstract(), out) == Feed(old(Abstract()), input[..used])
    {
      used, out := 0, [];
      var len := |input|;
      ghost var start := Abstract();
      while len > 0
        invariant Valid() && 0 <= used && 0 <= len && used + len == |input|
        invariant used == 0 ==> Abstract() == start && out == []
        invariant out == [] && estado.RecibiendoBloque? && tipo == old(tipo) && longitud + used == old(longitud)
        invariant Feed(start, input[..used]) == (Abstract(), [])
        decreases len
      {
        ghost var before := Abstract();
        FeedConcat(start, input[..used], [input[used]]);
        FeedOne(before, input[used]);
        NoFrames(Advance(before, input[used]).1);
        assert input[..used + 1] == input[..used] + [input[used]];
        buffer[puntero] := input[used];
        puntero := puntero + 1;
        used := used + 1;
        longitud := longitud - 1;
        assert buffer[..puntero] == before.got + [input[used - 1]];
        if longitud == 0 {
          out := [Frame(tipo, buffer[..puntero])];
          puntero, estado := 0, EsperandoHeader;
          return;
        }
        len := len - 1;
      }
    }

    /** One poll with the bytes available now; what is not used stays for the next poll. */
    method Poll(input: seq<byte>) returns (used: nat, out: seq<Frame>)
      requires Valid()
      modifies this, buffer
      ensures Valid() && used <= |input|
      ensures (Abstract(), out) == Feed(old(Abstract()), input[..used])
      ensures used == 0 <==> input == [] || (old(estado).EsperandoTipo? && |input| == 1)
      ensures used > 0 ==> used == match old(estado)
                                   case EsperandoTipo => 2
                                   case RecibiendoBloque => if |input| < old(longitud) then |input| else old(longitud)
                                   case _ => 1
    {
      used, out := 0, [];
      if input == [] { return; }
      match estado {
        case EsperandoHeader =>
          used := 1;
          FeedOne(Header, input[0]);
          assert input[..1] == [input[0]];
          if input[0] == HEADER { estado := EsperandoTipo; }
        case EsperandoTipo =>
          if |input| >= 2 {
            used := 2;
            FeedOne(Kind, input[0]);
            FeedOne(KindLow(input[0]), input[1]);
            FeedConcat(Kind, [input[0]], [input[1]]);
            assert input[..2] == [input[0]] + [input[1]];
            tipo := 256 * input[0] as nat + input[1] as nat;
            estado := EsperandoLongitud;
          }
        case EsperandoLongitud =>
          used := 1;
          FeedOne(Length(tipo), input[0]);
          assert input[..1] == [input[0]];
          longitud := if input[0] == 0 then 256 else input[0] as nat;
          puntero, estado := 0, RecibiendoBloque;
          assert buffer[..0] == [];
        case RecibiendoBloque =>
          used, out := ReceiveBlock(input);
      }
    }

    /**
      Any sequence of polls without timeout: arrivals[i] is what came in before poll i.  The
      automaton has then parsed a prefix of all that came in, and the rest is still unread.
     */
    method Receive(arrivals: seq<seq<byte>>) returns (out: seq<Frame>, unread: seq<byte>)
      requires Valid()
      modifies this, buffer
      ensures Valid() && |unread| <= |Flat(arrivals)| && Flat(arrivals)[|Flat(arrivals)| - |unread|..] == unread
      ensures (Abstract(), out) == Feed(old(Abstract()), Flat(arrivals)[..|Flat(arrivals)| - |unread|])
    {
      out, unread := [], [];
      ghost var read, start := [], Abstract();
      for i := 0 to |arrivals|
        invariant Valid() && read + unread == Flat(arrivals[..i])
        invariant Feed(start, read) == (Abstract(), out)
      {
        FlatSnoc(arrivals, i);
        ghost var left := unread;
        unread := unread + arrivals[i];
        var used, fs := Poll(unread);
        FeedConcat(start, read, unread[..used]);
        Regroup(read, left, arrivals[i], used);
        read := read + unread[..used];
        unread := unread[used..];
        out := out + fs;
      }
      assert arrivals[..|arrivals|] == arrivals;
    }

    /**
      End to end: a stream of frames cut into arrivals in any way, polled after each arrival and
      then until nothing is left, is handed on as exactly those frames.
     */
    method ReceiveStream(arrivals: seq<seq<byte>>, ghost gaps: seq<seq<byte>>, ghost frames: seq<Frame>)
      returns (out: seq<Frame>)
      requires Valid() && Abstract() == Header
      requires |gaps| == |frames| + 1 && (forall f :: f in frames ==> ValidFrame(f))
      requires (forall g :: g in gaps ==> HEADER !in g)
      requires Flat(arrivals) == Stream(gaps, frames)
      modifies this, buffer
      ensures Valid() && Abstract() == Header && out == frames
    {
      var first, unread := Receive(arrivals);
      ghost var all := Flat(arrivals);
      ghost var read := all[..|all| - |unread|];
      assert all == read + unread;
      PolledStream(gaps, frames, read, unread, Abstract(), first);
      var rest := Drain(unread);
      out := first + rest;
    }

    /** Polling until everything is read, each poll seeing all that is left. */
    method Drain(input: seq<byte>) returns (out: seq<Frame>)
      requires Valid() && Feed(Abstract(), input).0 == Header
      modifies this, buffer
      ensures Valid() && (Abstract(), out) == Feed(old(Abstract()), input)
    {
      out := [];
      var unread := input;
      ghost var read, start := [], Abstract();
      while unread != []
        invariant Valid() && read + unread == input
        invariant Feed(start, read) == (Abstract(), out)
        decreases |unread|
      {
        FeedConcat(start, read, unread);
        NotStuck(Abstract(), unread);
        var used, fs := Poll(unread);
        FeedConcat(start, read, unread[..used]);
        Regroup(read, unread, [], used);
        assert unread + [] == unread;
        read := read + unread[..used];
        unread := unread[used..];
        out := out + fs;
      }
      assert read == input;
    }
  }

  /** The encoder: a buffer of len + 4 bytes is filled, and one byte more than that is sent. */
  method SendToPSOC5(data: seq<byte>, handle: nat, filler: byte, updating: bool) returns (wire: seq<byte>)
    requires handle < 65536
    ensures wire == if updating then [] else Encode(Frame(handle, data)) + [filler]
  {
    var tx := new byte[|data| + 4](_ => 0);
    tx[0], tx[1], tx[2] := HEADER, (handle / 256) as byte, (handle % 256) as byte;
    tx[3] := (|data| % 256) as byte;
    for i := 0 to |data|
      invariant tx[..4] == Encode(Frame(handle, data))[..4]
      invariant forall k :: 0 <= k < i ==> tx[4 + k] == data[k]
    {
      tx[4 + i] := data[i];
    }
    assert tx[..] == Encode(Frame(handle, data));
    wire := if updating then [] else tx[..] + [filler];
  }

  function Flat(parts: seq<seq<byte>>): seq<byte> {
    if parts == [] then [] else Flat(parts[..|parts| - 1]) + parts[|parts| - 1]
  }

  lemma FlatSnoc(parts: seq<seq<byte>>, i: nat)
    requires i < |parts|
    ensures Flat(parts[..i + 1]) == Flat(parts[..i]) + parts[i]
  {
    assert parts[..i + 1][..i] == parts[..i];
  }

  /** However the stream of frames is cut into polls, what is handed on is the frames so far. */
  lemma PolledStream(gaps: seq<seq<byte>>, frames: seq<Frame>, read: seq<byte>, unread: seq<byte>, p: Parser,
                     out: seq<Frame>)
    requires |gaps| == |frames| + 1 && (forall f :: f in frames ==> ValidFrame(f))
    requires (forall g :: g in gaps ==> HEADER !in g)
    requires read + unread == Stream(gaps, frames) && (p, out) == Feed(Header, read)
    ensures Feed(p, unread).0 == Header && out + Feed(p, unread).1 == frames
    ensures unread == [] ==> p == Header && out == frames
  {
    StreamIsParsed(gaps, frames);
    FeedConcat(Header, read, unread);
    assert out + [] == out;
  }
}
