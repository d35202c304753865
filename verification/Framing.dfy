/** The length-prefixed frames on the wire, as the Python and the Go side write and read them. */
module Framing {

  type byte = x: int | 0 <= x < 256
  type bytes = seq<byte>

  const HEADER := 4
  const MAX_PAYLOAD := 0x10_0000

  /** n in w bytes, the most significant first. */
  function BigEndian(n: nat, w: nat): (h: bytes)
    ensures |h| == w
  {
    if w == 0 then [] else BigEndian(n / 256, w - 1) + [n % 256]
  }

  /** The 4-byte big-endian length. */
  function Header(n: nat): (h: bytes)
    ensures |h| == HEADER
  {
    BigEndian(n, HEADER)
  }

  function Length(h: bytes): nat {
    if h == [] then 0 else Length(h[..|h| - 1]) * 256 + h[|h| - 1] as int
  }

  function Range(w: nat): nat {
    if w == 0 then 1 else 256 * Range(w - 1)
  }

  lemma {:induction false} BigEndianIsExact(n: nat, w: nat)
    requires n < Range(w)
    ensures Length(BigEndian(n, w)) == n
  {
    if w > 0 {
      BigEndianIsExact(n / 256, w - 1);
      assert BigEndian(n, w)[..w - 1] == BigEndian(n / 256, w - 1);
    }
  }

  /** The length field is exact over the whole 32-bit range. */
  lemma LengthIsExact(n: nat)
    requires n < 0x1_0000_0000
    ensures Length(Header(n)) == n
  {
    assert Range(2) == 256 * Range(1) && Range(1) == 256 * Range(0);
    assert Range(4) == 256 * Range(3) && Range(3) == 256 * Range(2);
    BigEndianIsExact(n, HEADER);
  }

  /** And every length field is that of exactly one number below 2^32. */
  lemma {:induction false} EveryFieldIsALength(h: bytes)
    ensures Length(h) < Range(|h|) && BigEndian(Length(h), |h|) == h
  {
    if h != [] {
      var init, d := h[..|h| - 1], h[|h| - 1] as int;
      EveryFieldIsALength(init);
      var m := Length(init);
      assert Length(h) == m * 256 + d && Length(h) / 256 == m && Length(h) % 256 == d;
    }
  }

  lemma HeaderBytes(n: nat)
    requires n < 0x1_0000_0000
    ensures Header(n) == [n / 0x100_0000, n / 0x1_0000 % 256, n / 0x100 % 256, n % 256]
  {
    assert BigEndian(n / 256, 3) == BigEndian(n / 256 / 256, 2) + [n / 256 % 256];
    assert BigEndian(n / 256 / 256, 2) == BigEndian(n / 256 / 256 / 256, 1) + [n / 256 / 256 % 256];
    assert BigEndian(n / 256 / 256 / 256, 1) == BigEndian(n / 256 / 256 / 256 / 256, 0) + [n / 256 / 256 / 256 % 256];
    assert n / 256 / 256 == n / 0x1_0000 && n / 256 / 256 / 256 == n / 0x100_0000;
  }

  /** Payloads above the limit are refused by both writers. */
  predicate Fits(p: bytes) {
    |p| <= 0x10_0000
  }

  function Frame(p: bytes): bytes
    requires Fits(p)
  {
    Header(|p|) + p
  }

  datatype Payloads = Empty | Payload(first: bytes, more: Payloads) {
    function Plus(other: Payloads): Payloads {
      if Empty? then other else Payload(first, more.Plus(other))
    }

    predicate Sendable() {
      Payload? ==> Fits(first) && more.Sendable()
    }
  }

  datatype Outcome = Received(payload: bytes, rest: bytes) | Incomplete | TooLong

  /** One attempt to read a frame from the bytes at hand. */
  function ReadOne(t: bytes): (r: Outcome)
    ensures r.Received? ==> |r.rest| < |t|
  {
    if |t| < HEADER then Incomplete
    else
      var n := Length(t[..HEADER]);
      if n > MAX_PAYLOAD then TooLong
      else if |t| < HEADER + n then Incomplete
      else Received(t[HEADER..HEADER + n], t[HEADER + n..])
  }

  /** A reader waits while the header or the announced payload is incomplete, refuses a length above 2^20, and else
      takes exactly the announced bytes after the header. */
  lemma ReadOneIff(t: bytes)
    ensures ReadOne(t).TooLong? <==> |t| >= 4 && Length(t[..4]) > 0x10_0000
    ensures ReadOne(t).Incomplete? <==> |t| < 4 || (Length(t[..4]) <= 0x10_0000 && |t| < 4 + Length(t[..4]))
    ensures ReadOne(t).Received? ==> |ReadOne(t).payload| == Length(t[..4]) && t == t[..4] + ReadOne(t).payload + ReadOne(t).rest
  {
    if ReadOne(t).Received? {
      var n := Length(t[..4]);
      assert t[4..] == t[4..4 + n] + t[4 + n..];
    }
  }

  /** Everything a reader gets out of a stream: payloads, then bytes it waits on or a broken stream. */
  datatype Decoded = Waiting(left: bytes) | Broken | Next(payload: bytes, more: Decoded)

  function Decode(t: bytes): Decoded
    decreases |t|
  {
    match ReadOne(t)
    case Received(p, rest) => Next(p, Decode(rest))
    case Incomplete => Waiting(t)
    case TooLong => Broken
  }

  function Outputs(d: Decoded): Payloads {
    if d.Next? then Payload(d.payload, Outputs(d.more)) else Empty
  }

  function Ending(d: Decoded): Decoded {
    if d.Next? then Ending(d.more) else d
  }

  /** The frames of ps, one after the other, in front of tail. */
  function Wire(ps: Payloads, tail: bytes): bytes
    requires ps.Sendable()
  {
    if ps.Empty? then tail else Frame(ps.first) + Wire(ps.more, tail)
  }

  lemma ReadFrameBack(p: bytes, tail: bytes)
    requires Fits(p)
    ensures ReadOne(Frame(p) + tail) == Received(p, tail)
  {
    var t := Frame(p) + tail;
    LengthIsExact(|p|);
    assert t[..HEADER] == Header(|p|);
    assert t[HEADER..HEADER + |p|] == p;
    assert t[HEADER + |p|..] == tail;
  }

  /** What was framed comes back, and the rest of the stream is read as if it stood alone. */
  lemma {:induction false} StreamRoundTrip(ps: Payloads, tail: bytes)
    requires ps.Sendable()
    ensures Outputs(Decode(Wire(ps, tail))) == ps.Plus(Outputs(Decode(tail)))
    ensures Ending(Decode(Wire(ps, tail))) == Ending(Decode(tail))
  {
    if ps.Payload? {
      StreamRoundTrip(ps.more, tail);
      ReadFrameBack(ps.first, Wire(ps.more, tail));
    }
  }

  // ---------------------------------------------------------------- truncated streams

  /** The payloads whose frames fit completely into the first k bytes. */
  function Complete(ps: Payloads, k: nat): Payloads {
    if ps.Empty? || k < HEADER + |ps.first| then Empty
    else Payload(ps.first, Complete(ps.more, k - HEADER - |ps.first|))
  }

  /** A stream cut off anywhere yields exactly its complete frames, and is never taken for a broken one. */
  lemma {:induction false} TruncatedStream(ps: Payloads, k: nat)
    requires ps.Sendable() && k <= |Wire(ps, [])|
    ensures Outputs(Decode(Wire(ps, [])[..k])) == Complete(ps, k)
    ensures Ending(Decode(Wire(ps, [])[..k])).Waiting?
  {
    if ps.Empty? {
      assert ReadOne([]) == Incomplete;
    } else if k < HEADER + |ps.first| {
      CutInsideFrame(ps.first, Wire(ps.more, []), k);
    } else {
      var k' := k - HEADER - |ps.first|;
      TruncatedStream(ps.more, k');
      CutAfterFrame(ps.first, Wire(ps.more, []), k');
    }
  }

  lemma CutAfterFrame(p: bytes, rest: bytes, k: nat)
    requires Fits(p) && k <= |rest|
    ensures Decode((Frame(p) + rest)[..HEADER + |p| + k]) == Next(p, Decode(rest[..k]))
  {
    assert (Frame(p) + rest)[..HEADER + |p| + k] == Frame(p) + rest[..k];
    ReadFrameBack(p, rest[..k]);
  }

  lemma CutInsideFrame(p: bytes, rest: bytes, k: nat)
    requires Fits(p) && k < HEADER + |p|
    ensures Decode((Frame(p) + rest)[..k]) == Waiting((Frame(p) + rest)[..k])
  {
    var t := (Frame(p) + rest)[..k];
    if k >= HEADER {
      assert t[..HEADER] == Header(|p|);
      LengthIsExact(|p|);
    }
  }

  // ---------------------------------------------------------------- chunks

  /** What more bytes do to what a reader has got so far. */
  function Continue(d: Decoded, chunk: bytes): Decoded {
    match d
    case Waiting(left) => Decode(left + chunk)
    case Broken => Broken
    case Next(p, more) => Next(p, Continue(more, chunk))
  }

  /** Reading on is the same as reading everything at once. */
  lemma {:induction false} DecodeInTwo(t: bytes, chunk: bytes)
    ensures Decode(t + chunk) == Continue(Decode(t), chunk)
    decreases |t|
  {
    match ReadOne(t)
    case Received(p, rest) =>
      ReadOneExtends(t, chunk);
      DecodeInTwo(rest, chunk);
    case Incomplete =>
    case TooLong => assert (t + chunk)[..HEADER] == t[..HEADER];
  }

  lemma ReadOneExtends(t: bytes, chunk: bytes)
    requires ReadOne(t).Received?
    ensures ReadOne(t + chunk) == Received(ReadOne(t).payload, ReadOne(t).rest + chunk)
  {
    var n := Length(t[..HEADER]);
    assert (t + chunk)[..HEADER] == t[..HEADER];
    assert (t + chunk)[HEADER..HEADER + n] == t[HEADER..HEADER + n];
    assert (t + chunk)[HEADER + n..] == t[HEADER + n..] + chunk;
  }

  lemma {:induction false} OutputsOfContinue(d: Decoded, chunk: bytes)
    ensures Ending(Continue(d, chunk)) == Ending(Continue(Ending(d), chunk))
    ensures Outputs(Continue(d, chunk)) == Outputs(d).Plus(Outputs(Continue(Ending(d), chunk)))
  {
    if d.Next? { OutputsOfContinue(d.more, chunk); }
  }

  lemma {:induction false} PlusOne(a: Payloads, p: bytes, b: Payloads)
    ensures a.Plus(Payload(p, Empty)).Plus(b) == a.Plus(Payload(p, b))
  {
    if a.Payload? { PlusOne(a.more, p, b); }
  }

  lemma {:induction false} PlusEmpty(a: Payloads)
    ensures a.Plus(Empty) == a
  {
    if a.Payload? { PlusEmpty(a.more); }
  }

  /** The reading side of a connection. Chunks arrive in any sizes; whatever has arrived,
      the payloads delivered are those of the whole stream. */
  class FrameReader {
    var buffer: bytes
    var broken: bool
    var delivered: Payloads
    ghost var received: bytes

    ghost predicate Valid()
      reads this
    {
      && delivered == Outputs(Decode(received))
      && Ending(Decode(received)) == (if broken then Broken else Waiting(buffer))
      && (!broken ==> Decode(buffer) == Waiting(buffer))
    }

    constructor ()
      ensures Valid() && received == [] && delivered == Empty
    {
      buffer, broken, delivered := [], false, Empty;
      received := [];
    }

    method Feed(chunk: bytes)
      requires Valid()
      modifies this
      ensures Valid() && received == old(received) + chunk
    {
      DecodeInTwo(received, chunk);
      OutputsOfContinue(Decode(received), chunk);
      received := received + chunk;
      PlusEmpty(delivered);
      if broken {
        return;
      }
      buffer := buffer + chunk;
      while true
        invariant !broken && received == old(received) + chunk
        invariant delivered.Plus(Outputs(Decode(buffer))) == Outputs(Decode(received))
        invariant Ending(Decode(buffer)) == Ending(Decode(received))
        decreases |buffer|
      {
        var r := ReadOne(buffer);
        match r
        case Received(payload, rest) =>
          PlusOne(delivered, payload, Outputs(Decode(rest)));
          delivered := delivered.Plus(Payload(payload, Empty));
          buffer := rest;
        case Incomplete => break;
        case TooLong =>
          broken := true;
          break;
      }
      PlusEmpty(delivered);
    }
  }

  function Concat(chunks: seq<bytes>): bytes {
    if chunks == [] then [] else Concat(chunks[..|chunks| - 1]) + chunks[|chunks| - 1]
  }

  /** Frames sent, cut into any chunks and fed in order, come out as the payloads sent. */
  method ReceiveChunks(ghost ps: Payloads, chunks: seq<bytes>) returns (out: Payloads)
    requires ps.Sendable()
    requires Concat(chunks) == Wire(ps, [])
    ensures out == ps
  {
    var reader := new FrameReader();
    for i := 0 to |chunks|
      invariant reader.Valid() && reader.received == Concat(chunks[..i])
    {
      assert chunks[..i + 1][..i] == chunks[..i];
      reader.Feed(chunks[i]);
    }
    assert chunks[..|chunks|] == chunks;
    StreamRoundTrip(ps, []);
    assert Decode([]) == Waiting([]);
    PlusEmpty(ps);
    out := reader.delivered;
  }

  // ---------------------------------------------------------------- the writers and the Go reader

  /** The Python writer: the error is the exception. What it accepts a reader takes back whole. */
  method EncodeFrame(data: bytes) returns (ok: bool, frame: bytes)
    ensures ok <==> Fits(data)
    ensures ok ==> frame == Frame(data) && ReadOne(frame) == Received(data, [])
  {
    if |data| > MAX_PAYLOAD {
      return false, [];
    }
    ReadFrameBack(data, []);
    assert Frame(data) + [] == Frame(data);
    return true, Header(|data|) + data;
  }

  /** The Go writer fills one buffer in place. */
  method GoEncodeFrame(data: bytes) returns (ok: bool, frame: array<byte>)
    ensures ok <==> Fits(data)
    ensures ok ==> frame[..] == Frame(data)
    ensures fresh(frame)
  {
    if |data| > MAX_PAYLOAD {
      frame := new byte[0];
      return false, frame;
    }
    frame := new byte[HEADER + |data|];
    var n := |data|;
    HeaderBytes(n);
    frame[0] := n / 0x100_0000;
    frame[1] := n / 0x1_0000 % 256;
    frame[2] := n / 0x100 % 256;
    frame[3] := n % 256;
    for i := 0 to |data|
      invariant frame[..HEADER] == Header(n)
      invariant forall j :: 0 <= j < i ==> frame[HEADER + j] == data[j]
    {
      frame[HEADER + i] := data[i];
    }
    ok := true;
    assert frame[..] == Header(n) + data;
  }

  /** A reader that hands out its data in pieces of any size. */
  class Reader {
    const data: bytes
    var pos: nat

    ghost predicate Valid()
      reads this
    {
      pos <= |data|
    }

    constructor (data: bytes)
      ensures Valid() && this.data == data && pos == 0
    {
      this.data := data;
      pos := 0;
    }

    /** At least one byte if any are left and wanted; none at the end of the data. */
    method Read(want: nat) returns (got: bytes)
      requires Valid()
      modifies this
      ensures Valid() && old(pos) <= pos && got == data[old(pos)..pos] && |got| <= want
      ensures want > 0 && old(pos) < |data| ==> got != []
    {
      var n: nat := 0;
      if want > 0 && pos < |data| {
        n :| 1 <= n <= want && pos + n <= |data|;
      }
      got := data[pos..pos + n];
      pos := pos + n;
    }

    /** Fills the whole buffer, or fails at the end of the data. */
    method ReadFull(buf: array<byte>) returns (ok: bool)
      requires Valid()
      modifies this, buf
      ensures Valid()
      ensures ok <==> old(pos) + buf.Length <= |data|
      ensures ok ==> pos == old(pos) + buf.Length && buf[..] == data[old(pos)..pos]
    {
      var filled := 0;
      while filled < buf.Length
        invariant filled <= buf.Length && Valid() && pos == old(pos) + filled
        invariant buf[..filled] == data[old(pos)..pos]
      {
        ghost var before := pos;
        var got := Read(buf.Length - filled);
        if got == [] {
          return false;
        }
        ghost var prefix := buf[..filled];
        for i := 0 to |got|
          modifies buf
          invariant buf[..filled] == prefix
          invariant forall j :: 0 <= j < i ==> buf[filled + j] == got[j]
        {
          buf[filled + i] := got[i];
        }
        assert buf[..filled + |got|] == prefix + got;
        assert data[old(pos)..before] + data[before..pos] == data[old(pos)..pos];
        filled := filled + |got|;
      }
      assert buf[..] == buf[..filled];
      ok := true;
    }
  }

  /** The Go reader agrees with ReadOne on the data not read yet, however it comes in. */
  method GoReadFrame(r: Reader) returns (outcome: Outcome)
    requires r.Valid()
    modifies r
    ensures r.Valid()
    ensures outcome == ReadOne(old(r.data[r.pos..]))
    ensures outcome.Received? ==> r.data[r.pos..] == outcome.rest
  {
    ghost var start := r.pos;
    ghost var t := r.data[start..];
    var header := new byte[HEADER];
    var ok := r.ReadFull(header);
    if !ok {
      return Incomplete;
    }
    assert header[..] == t[..HEADER];
    var length := Length(header[..]);
    if length > MAX_PAYLOAD {
      return TooLong;
    }
    var data := new byte[length];
    ok := r.ReadFull(data);
    if !ok {
      return Incomplete;
    }
    assert data[..] == t[HEADER..HEADER + length];
    assert r.data[r.pos..] == t[HEADER + length..];
    outcome := Received(data[..], r.data[r.pos..]);
  }
}
