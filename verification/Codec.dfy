/**
 The incremental decoder and the encoder of the binary protocol (src/protocol/codec.rs and
 Packet::split_args in src/protocol/packet.rs), each proved against a description of the wire
 format, and the laws that follow for byte streams of any length.
 */
module Codec {
  import opened Wrappers
  import opened Protocol

  /** The cap of the codec that every connection uses. */
  const DEFAULT_MAX_PAYLOAD_SIZE: u32 := 64 * 1024 * 1024

  // ---------- The wire format ----------

  function BE32(n: u32): bytes {
    [(n / 0x100_0000) as byte, (n / 0x1_0000 % 0x100) as byte, (n / 0x100 % 0x100) as byte, (n % 0x100) as byte]
  }

  function FromBE32(b: bytes): u32
    requires |b| == 4
  {
    b[0] as int * 0x100_0000 + b[1] as int * 0x1_0000 + b[2] as int * 0x100 + b[3] as int
  }

  /** Dividing off the last base-256 digit. */
  lemma LastDigit(n: nat, q: nat, r: nat)
    requires n == 0x100 * q + r && r < 0x100
    ensures n / 0x100 == q && n % 0x100 == r
    ensures n / 0x1_0000 == q / 0x100 && n / 0x100_0000 == q / 0x1_0000
  {
  }

  lemma BE32Reads(n: u32)
    ensures FromBE32(BE32(n)) == n
  {
    LastDigit(n, n / 0x100, n % 0x100);
    LastDigit(n / 0x100, n / 0x1_0000, n / 0x100 % 0x100);
    LastDigit(n / 0x1_0000, n / 0x100_0000, n / 0x1_0000 % 0x100);
  }

  lemma BE32Writes(b: bytes)
    requires |b| == 4
    ensures BE32(FromBE32(b)) == b
  {
    var mid, low := b[0] as int * 0x100 + b[1] as int, b[0] as int * 0x1_0000 + b[1] as int * 0x100 + b[2] as int;
    LastDigit(FromBE32(b), low, b[3] as int);
    LastDigit(low, mid, b[2] as int);
    LastDigit(mid, b[0] as int, b[1] as int);
  }

  lemma BE32RoundTrip(n: u32, b: bytes)
    requires |b| == 4
    ensures FromBE32(b) == n <==> b == BE32(n)
  {
    hide FromBE32, BE32;
    BE32Reads(n);
    BE32Writes(b);
  }

  /** The arguments with a NUL between neighbours: a packet's body. */
  function Join(args: seq<bytes>): bytes {
    if |args| == 0 then [] else if |args| == 1 then args[0] else args[0] + [0] + Join(args[1..])
  }

  /** Every argument but the last is free of NUL bytes. */
  predicate Separable(args: seq<bytes>) {
    forall i :: 0 <= i < |args| - 1 ==> 0 !in args[i]
  }

  predicate Fits(max: u32, p: Packet) {
    |p.args| == p.ptype.ArgCount() && |Join(p.args)| <= max
  }

  /** The packets that the wire format can carry under the payload cap `max`. */
  predicate WellFormed(max: u32, p: Packet) {
    Fits(max, p) && Separable(p.args)
  }

  function Header(magic: PacketMagic, ptype: PacketType, len: u32): (h: bytes)
    ensures |h| == HEADER_LEN
  {
    magic.Bytes() + BE32(ptype.Code()) + BE32(len)
  }

  /** The bytes of a packet: header, then body; the header's length field is 32 bits wide. */
  function Wire(p: Packet): (w: bytes)
    ensures |w| == HEADER_LEN + |Join(p.args)|
  {
    Header(p.magic, p.ptype, AsU32(|Join(p.args)|)) + Join(p.args)
  }

  /** A length cast to 32 bits. */
  function AsU32(n: nat): u32 {
    if n < 0x1_0000_0000 then n else n % 0x1_0000_0000
  }

  function WireAll(ps: seq<Packet>): bytes {
    if ps == [] then [] else Wire(ps[0]) + WireAll(ps[1..])
  }

  // ---------- Splitting a body into arguments ----------

  /** `args` is a reading of `payload` as `count` arguments. */
  predicate IsSplit(count: nat, payload: bytes, args: seq<bytes>) {
    |args| == count && Separable(args) && Join(args) == payload
  }

  lemma FirstNul(args: seq<bytes>)
    requires |args| >= 2 && Separable(args)
    ensures Separable(args[1..])
    ensures var body := Join(args); var k := |args[0]|;
      k < |body| && body[k] == 0 && body[..k] == args[0] && 0 !in body[..k] && body[k + 1..] == Join(args[1..])
  {
    forall i | 0 <= i < |args[1..]| - 1 ensures 0 !in args[1..][i] {
      assert args[1..][i] == args[i + 1];
    }
  }

  lemma JoinCons(arg: bytes, args: seq<bytes>)
    requires args != []
    ensures Join([arg] + args) == arg + [0] + Join(args)
    ensures 0 !in arg && Separable(args) ==> Separable([arg] + args)
  {
    assert ([arg] + args)[1..] == args;
  }

  function FindNul(b: bytes): (k: nat)
    ensures k <= |b| && 0 !in b[..k] && (k < |b| ==> b[k] == 0)
  {
    if b == [] || b[0] == 0 then 0
    else
      var k := 1 + FindNul(b[1..]);
      assert b[..k] == [b[0]] + b[1..][..k - 1];
      k
  }

  /** Splitting off arguments from the front; the last one takes what remains. */
  function Split(count: nat, payload: bytes): (r: Option<seq<bytes>>)
    ensures r.Some? ==> IsSplit(count, payload, r.value)
  {
    if count == 0 then if payload == [] then Some([]) else None
    else if count == 1 then Some([payload])
    else
      var k := FindNul(payload);
      if k == |payload| then None
      else
        var rest := Split(count - 1, payload[k + 1..]);
        assert rest.Some? ==> IsSplit(count, payload, [payload[..k]] + rest.value) by {
          if rest.Some? {
            JoinCons(payload[..k], rest.value);
            assert payload == payload[..k] + [0] + payload[k + 1..];
          }
        }
        Prefixed([payload[..k]], rest)
  }

  function Prefixed(args: seq<bytes>, rest: Option<seq<bytes>>): Option<seq<bytes>> {
    if rest.None? then None else Some(args + rest.value)
  }

  lemma PrefixedNone(rest: Option<seq<bytes>>)
    ensures Prefixed([], rest) == rest
  {
    if rest.Some? {
      assert [] + rest.value == rest.value;
    }
  }

  lemma PrefixedTwice(a: seq<bytes>, b: seq<bytes>, rest: Option<seq<bytes>>)
    ensures Prefixed(a, Prefixed(b, rest)) == Prefixed(a + b, rest)
  {
    if rest.Some? {
      assert a + (b + rest.value) == (a + b) + rest.value;
    }
  }

  lemma FirstNulUnique(b: bytes, i: nat, j: nat)
    requires i < |b| && b[i] == 0 && 0 !in b[..i]
    requires j < |b| && b[j] == 0 && 0 !in b[..j]
    ensures i == j
  {
  }

  lemma ReadingFront(count: nat, payload: bytes, args: seq<bytes>) returns (k: nat)
    requires count >= 2 && IsSplit(count, payload, args)
    ensures |args| == count && k < |payload| && payload[k] == 0 && k == FindNul(payload) && args[0] == payload[..k]
    ensures IsSplit(count - 1, payload[k + 1..], args[1..])
  {
    FirstNul(args);
    k := |args[0]|;
    hide Separable, Join;
    FoundFirst(payload, k);
  }

  lemma SplitContinues(count: nat, payload: bytes, args: seq<bytes>)
    requires count >= 2 && |args| == count && FindNul(payload) < |payload|
    requires args[0] == payload[..FindNul(payload)]
    requires Split(count - 1, payload[FindNul(payload) + 1..]) == Some(args[1..])
    ensures Split(count, payload) == Some(args)
  {
    hide IsSplit, FindNul;
    assert args == [args[0]] + args[1..];
  }

  /** `Split` finds the one reading of a payload whenever there is one. */
  lemma {:induction false} SplitIff(count: nat, payload: bytes, args: seq<bytes>)
    ensures Split(count, payload) == Some(args) <==> IsSplit(count, payload, args)
  {
    hide Split, IsSplit, FindNul, Prefixed;
    if IsSplit(count, payload, args) {
      if count >= 2 {
        var k := ReadingFront(count, payload, args);
        SplitIff(count - 1, payload[k + 1..], args[1..]);
        SplitContinues(count, payload, args);
      } else {
        SplitShort(count, payload, args);
      }
    }
  }

  lemma SplitShort(count: nat, payload: bytes, args: seq<bytes>)
    requires count <= 1 && IsSplit(count, payload, args)
    ensures Split(count, payload) == Some(args)
  {
    if count == 1 {
      assert args == [payload];
    }
  }

  lemma FoundFirst(b: bytes, i: nat)
    requires i < |b| && b[i] == 0 && 0 !in b[..i]
    ensures FindNul(b) == i
  {
    var k := FindNul(b);
    assert b[i] in b && b[..|b|] == b;
    FirstNulUnique(b, k, i);
  }

  // ---------- Decoding one packet ----------

  datatype Decoded =
    | NeedMore
    | Got(packet: Packet, rest: bytes)
    | Failed(error: CodecError, rest: bytes)
  {
    /** What is left in the buffer that was `data` before the call. */
    function Rest(data: bytes): bytes {
      if NeedMore? then data else rest
    }
  }

  function MagicOf(b: bytes): Option<PacketMagic> {
    if b == REQ_MAGIC then Some(Req) else if b == RES_MAGIC then Some(Res) else None
  }

  function Malformed(ptype: PacketType): CodecError {
    MalformedBody(ptype, if ptype.ArgCount() == 0 then ExpectedEmptyPayload else MissingSeparator)
  }

  function Decode1(max: u32, data: bytes): Decoded {
    if |data| < HEADER_LEN then NeedMore
    else match MagicOf(data[..4])
      case None => Failed(BadMagic(data[..4]), data)
      case Some(magic) =>
        match FromCode(FromBE32(data[4..8]))
        case Err(e) => Failed(e, data)
        case Ok(ptype) =>
          var len := FromBE32(data[8..12]);
          if len > max then Failed(PayloadTooLarge(len), data)
          else if |data| < HEADER_LEN + len then NeedMore
          else
            var rest := data[HEADER_LEN + len..];
            match Split(ptype.ArgCount(), data[HEADER_LEN..HEADER_LEN + len])
            case None => Failed(Malformed(ptype), rest)
            case Some(args) => Got(Packet(magic, ptype, args), rest)
  }

  predicate IsHeader(h: bytes, magic: PacketMagic, ptype: PacketType, len: u32) {
    && |h| == HEADER_LEN
    && MagicOf(h[..4]) == Some(magic)
    && FromCode(FromBE32(h[4..8])) == Ok(ptype)
    && FromBE32(h[8..12]) == len
  }

  lemma HeaderFields(magic: PacketMagic, ptype: PacketType, len: u32)
    ensures IsHeader(Header(magic, ptype, len), magic, ptype, len)
  {
    var h := Header(magic, ptype, len);
    assert h[..4] == magic.Bytes();
    assert h[4..8] == BE32(ptype.Code());
    assert h[8..12] == BE32(len);
    BE32RoundTrip(ptype.Code(), h[4..8]);
    BE32RoundTrip(len, h[8..12]);
    FromCodeOfCode(ptype);
  }

  lemma HeaderOfFields(data: bytes, magic: PacketMagic, ptype: PacketType)
    requires |data| >= HEADER_LEN
    requires MagicOf(data[..4]) == Some(magic) && FromCode(FromBE32(data[4..8])) == Ok(ptype)
    ensures data[..HEADER_LEN] == Header(magic, ptype, FromBE32(data[8..12]))
  {
    BE32RoundTrip(FromBE32(data[4..8]), data[4..8]);
    BE32RoundTrip(FromBE32(data[8..12]), data[8..12]);
    CodeOfFromCode(FromBE32(data[4..8]));
    assert data[..HEADER_LEN] == data[..4] + data[4..8] + data[8..12];
  }

  lemma DecodedIsWire(max: u32, data: bytes, p: Packet, rest: bytes)
    requires Decode1(max, data) == Got(p, rest)
    ensures WellFormed(max, p) && data == Wire(p) + rest
  {
    hide FromCode, BE32;
    var len := FromBE32(data[8..12]);
    HeaderOfFields(data, p.magic, p.ptype);
    assert data == data[..HEADER_LEN] + data[HEADER_LEN..HEADER_LEN + len] + rest;
  }

  /** A buffer that starts with a whole frame decodes as its body splits. */
  lemma FrameDecodes(max: u32, h: bytes, magic: PacketMagic, ptype: PacketType, body: bytes, rest: bytes)
    requires |body| <= max && IsHeader(h, magic, ptype, |body|)
    ensures Decode1(max, h + body + rest)
         == match Split(ptype.ArgCount(), body)
            case None => Failed(Malformed(ptype), rest)
            case Some(args) => Got(Packet(magic, ptype, args), rest)
  {
    hide FromCode, FromBE32, Split;
    var data := h + body + rest;
    assert data[..4] == h[..4] && data[4..8] == h[4..8] && data[8..12] == h[8..12];
    assert data[HEADER_LEN..HEADER_LEN + |body|] == body;
    assert data[HEADER_LEN + |body|..] == rest;
  }

  /**
   The decoder yields `p` and leaves `rest` exactly when `p` is well-formed and the buffer is the
   packet's encoding followed by `rest`: decoding and encoding are inverse in both directions.
   */
  lemma DecodeIff(max: u32, data: bytes, p: Packet, rest: bytes)
    ensures Decode1(max, data) == Got(p, rest) <==> WellFormed(max, p) && data == Wire(p) + rest
  {
    if Decode1(max, data) == Got(p, rest) {
      DecodedIsWire(max, data, p, rest);
    }
    if WellFormed(max, p) && data == Wire(p) + rest {
      HeaderFields(p.magic, p.ptype, |Join(p.args)|);
      FrameDecodes(max, Header(p.magic, p.ptype, |Join(p.args)|), p.magic, p.ptype, Join(p.args), rest);
      SplitIff(p.ptype.ArgCount(), Join(p.args), p.args);
    }
  }

  /** A decision, once made, is not changed by bytes that arrive later. */
  lemma DecodeStable(max: u32, data: bytes, more: bytes)
    requires !Decode1(max, data).NeedMore?
    ensures Decode1(max, data + more) == match Decode1(max, data)
            case Got(p, rest) => Got(p, rest + more)
            case Failed(e, rest) => Failed(e, rest + more)
  {
    hide FromCode, FromBE32, Split;
    assert (data + more)[..4] == data[..4];
    assert (data + more)[4..8] == data[4..8] && (data + more)[8..12] == data[8..12];
    var len := FromBE32(data[8..12]);
    if |data| >= HEADER_LEN + len {
      assert (data + more)[HEADER_LEN..HEADER_LEN + len] == data[HEADER_LEN..HEADER_LEN + len];
      assert (data + more)[HEADER_LEN + len..] == data[HEADER_LEN + len..] + more;
    }
  }

  // ---------- Decoding a stream ----------

  /** What a framed reader has produced: `buffer` holds the bytes received and not consumed. */
  datatype Reader = Reader(packets: seq<Packet>, error: Option<CodecError>, buffer: bytes) {
    function After(earlier: seq<Packet>): Reader {
      this.(packets := earlier + packets)
    }
  }

  /** Decodes until the decoder asks for more bytes or fails. */
  function Drain(max: u32, data: bytes): Reader
    decreases |data|
  {
    match Decode1(max, data)
    case NeedMore => Reader([], None, data)
    case Failed(e, rest) => Reader([], Some(e), rest)
    case Got(p, rest) =>
      DecodedIsWire(max, data, p, rest);
      Drain(max, rest).After([p])
  }

  /** One read: append, then drain; a reader that has failed decodes no further. */
  function Feed(max: u32, r: Reader, chunk: bytes): Reader {
    if r.error.Some? then r.(buffer := r.buffer + chunk)
    else Drain(max, r.buffer + chunk).After(r.packets)
  }

  function FeedAll(max: u32, r: Reader, chunks: seq<bytes>): Reader
    decreases |chunks|
  {
    if chunks == [] then r else FeedAll(max, Feed(max, r, chunks[0]), chunks[1..])
  }

  function Flatten(chunks: seq<bytes>): bytes {
    if chunks == [] then [] else chunks[0] + Flatten(chunks[1..])
  }

  lemma AfterAfter(r: Reader, a: seq<Packet>, b: seq<Packet>)
    ensures r.After(b).After(a) == r.After(a + b)
  {
    assert a + (b + r.packets) == (a + b) + r.packets;
  }

  lemma FeedAfter(max: u32, r: Reader, earlier: seq<Packet>, chunk: bytes)
    ensures Feed(max, r.After(earlier), chunk) == Feed(max, r, chunk).After(earlier)
  {
    AfterAfter(Drain(max, r.buffer + chunk), earlier, r.packets);
  }

  /** Draining a longer buffer is draining the front and feeding the rest. */
  lemma {:induction false} DrainAppend(max: u32, data: bytes, more: bytes)
    ensures Drain(max, data + more) == Feed(max, Drain(max, data), more)
    decreases |data|
  {
    var d := Decode1(max, data);
    if !d.NeedMore? {
      DecodeStable(max, data, more);
    }
    if d.Got? {
      DecodedIsWire(max, data, d.packet, d.rest);
      DrainAppend(max, d.rest, more);
      FeedAfter(max, Drain(max, d.rest), [d.packet], more);
    }
  }

  lemma FeedTwice(max: u32, r: Reader, a: bytes, b: bytes)
    ensures Feed(max, Feed(max, r, a), b) == Feed(max, r, a + b)
  {
    assert r.buffer + (a + b) == (r.buffer + a) + b;
    DrainAppend(max, r.buffer + a, b);
    FeedAfter(max, Drain(max, r.buffer + a), r.packets, b);
  }

  /**
   Chunking independence: however the bytes are split into reads, the packets, the first error
   and the unconsumed bytes are those of a single read of the whole stream.
   */
  lemma {:induction false} ChunkingIndependence(max: u32, r: Reader, chunks: seq<bytes>)
    requires chunks != []
    ensures FeedAll(max, r, chunks) == Feed(max, r, Flatten(chunks))
    decreases |chunks|
  {
    if |chunks| == 1 {
      assert Flatten(chunks) == chunks[0];
    } else {
      ChunkingIndependence(max, Feed(max, r, chunks[0]), chunks[1..]);
      FeedTwice(max, r, chunks[0], Flatten(chunks[1..]));
    }
  }

  /** Encoding any list of well-formed packets and decoding the bytes gives the list back. */
  lemma {:induction false} StreamRoundTrip(max: u32, ps: seq<Packet>, tail: bytes)
    requires forall p <- ps :: WellFormed(max, p)
    ensures Drain(max, WireAll(ps) + tail) == Drain(max, tail).After(ps)
  {
    if ps == [] {
      assert WireAll(ps) + tail == tail;
    } else {
      var rest := WireAll(ps[1..]) + tail;
      assert WireAll(ps) + tail == Wire(ps[0]) + rest;
      DecodeIff(max, Wire(ps[0]) + rest, ps[0], rest);
      StreamRoundTrip(max, ps[1..], tail);
      AfterAfter(Drain(max, tail), [ps[0]], ps[1..]);
      assert [ps[0]] + ps[1..] == ps;
    }
  }

  lemma UndecodedIsShort(max: u32, data: bytes)
    requires Decode1(max, data).NeedMore?
    ensures |data| < HEADER_LEN + max
  {
  }

  ghost predicate UnreadableFrame(max: u32, bad: bytes, magic: PacketMagic, ptype: PacketType, body: bytes) {
    && |body| <= max
    && bad == Header(magic, ptype, |body|) + body
    && forall args :: !IsSplit(ptype.ArgCount(), body, args)
  }

  /** The bytes a failed decode consumed: none, or one whole frame whose body has no reading. */
  ghost predicate Unreadable(max: u32, bad: bytes, e: CodecError) {
    || (bad == [] && !e.MalformedBody?)
    || exists magic, ptype, body :: UnreadableFrame(max, bad, magic, ptype, body) && e == Malformed(ptype)
  }

  lemma FailedConsumes(max: u32, data: bytes) returns (bad: bytes)
    requires Decode1(max, data).Failed?
    ensures data == bad + Decode1(max, data).rest && Unreadable(max, bad, Decode1(max, data).error)
  {
    hide FromCode, Split, BE32, FromBE32;
    var e, rest := Decode1(max, data).error, Decode1(max, data).rest;
    UnassignedCodes(FromBE32(data[4..8]));
    if e.MalformedBody? {
      var magic, len := MagicOf(data[..4]).value, FromBE32(data[8..12]);
      var body := data[HEADER_LEN..HEADER_LEN + len];
      HeaderOfFields(data, magic, e.ptype);
      NoReading(e.ptype.ArgCount(), body);
      bad := data[..HEADER_LEN] + body;
      assert UnreadableFrame(max, bad, magic, e.ptype, body);
      assert data == bad + rest;
    } else {
      bad := [];
      assert data == [] + rest;
    }
  }

  lemma NoReading(count: nat, payload: bytes)
    requires Split(count, payload).None?
    ensures forall args :: !IsSplit(count, payload, args)
  {
    forall args ensures !IsSplit(count, payload, args) {
      SplitIff(count, payload, args);
    }
  }

  /**
   Conversely: every packet a stream produced is well-formed, and the stream is the encodings of
   those packets, what a failed decode consumed, and the unconsumed rest. Without an error the
   rest is shorter than a frame.
   */
  lemma {:induction false} StreamReencodes(max: u32, data: bytes)
    ensures var d := Drain(max, data);
      && (forall p <- d.packets :: WellFormed(max, p))
      && (d.error.None? ==> data == WireAll(d.packets) + d.buffer && |d.buffer| < HEADER_LEN + max)
      && (d.error.Some? ==> exists bad :: data == WireAll(d.packets) + (bad + d.buffer)
                                          && Unreadable(max, bad, d.error.value))
    decreases |data|
  {
    hide Decode1, Wire, WellFormed;
    var s, d := Decode1(max, data), Drain(max, data);
    if s.NeedMore? {
      UndecodedIsShort(max, data);
      assert data == WireAll(d.packets) + d.buffer;
    } else if s.Failed? {
      var bad := FailedConsumes(max, data);
      assert data == WireAll(d.packets) + (bad + d.buffer);
    } else {
      DecodedIsWire(max, data, s.packet, s.rest);
      StreamReencodes(max, s.rest);
      ReencodesCons(s.packet, Drain(max, s.rest));
      var t := Drain(max, s.rest);
      if t.error.Some? {
        var bad :| s.rest == WireAll(t.packets) + (bad + t.buffer) && Unreadable(max, bad, t.error.value);
        hide Unreadable;
        assert data == WireAll(d.packets) + (bad + d.buffer);
      }
    }
  }

  lemma ReencodesCons(p: Packet, t: Reader)
    ensures forall x: bytes :: Wire(p) + (WireAll(t.packets) + x) == WireAll(t.After([p]).packets) + x
  {
    assert ([p] + t.packets)[1..] == t.packets;
  }

  /**
   The encoder does not look for NUL bytes, so what it accepts need not come back. It comes back
   exactly when the arguments before the last one are free of NUL bytes.
   */
  lemma EncodedComesBackIff(max: u32, p: Packet, rest: bytes)
    requires Fits(max, p)
    ensures Decode1(max, Wire(p) + rest) == Got(p, rest) <==> Separable(p.args)
  {
    DecodeIff(max, Wire(p) + rest, p, rest);
  }

  /** A submission whose function name has a NUL byte in it is read back as one of another function. */
  lemma NulInNameIsLost()
    ensures var p := Packet(Req, SubmitJob, [[7, 0, 7], [], [9]]);
      && Fits(100, p)
      && Decode1(100, Wire(p)) == Got(Packet(Req, SubmitJob, [[7], [7], [0, 9]]), [])
  {
    var p, q := Packet(Req, SubmitJob, [[7, 0, 7], [], [9]]), Packet(Req, SubmitJob, [[7], [7], [0, 9]]);
    assert p.args[1..] == [[], [9]] && q.args[1..] == [[7], [0, 9]];
    assert Join([[], [9]]) == [0, 9] && Join([[7], [0, 9]]) == [7, 0, 0, 9] by {
      assert [[], [9]][1..] == [[9]] && [[7], [0, 9]][1..] == [[0, 9]];
    }
    assert Join(p.args) == [7, 0, 7, 0, 0, 9] == Join(q.args);
    assert Wire(p) == Wire(q) + [];
    DecodeIff(100, Wire(p), q, []);
  }

  // ---------- The codec's methods ----------

  /** A byte buffer that is consumed from the front and extended at the back. */
  class BytesMut {
    var data: bytes

    constructor (initial: bytes)
      ensures data == initial
    {
      data := initial;
    }

    method Advance(n: nat)
      requires n <= |data|
      modifies this
      ensures data == old(data)[n..]
    {
      data := data[n..];
    }

    method SplitTo(n: nat) returns (front: bytes)
      requires n <= |data|
      modifies this
      ensures front == old(data)[..n] && data == old(data)[n..]
    {
      front := data[..n];
      data := data[n..];
    }

    method Extend(more: bytes)
      modifies this
      ensures data == old(data) + more
    {
      data := data + more;
    }
  }

  /** The position of the first NUL byte of `payload`. */
  method Position(payload: bytes) returns (k: Option<nat>)
    ensures k.None? ==> 0 !in payload
    ensures k.Some? ==> k.value < |payload| && payload[k.value] == 0 && 0 !in payload[..k.value]
  {
    var i := 0;
    while i < |payload|
      invariant i <= |payload| && 0 !in payload[..i]
    {
      if payload[i] == 0 {
        return Some(i);
      }
      i := i + 1;
    }
    return None;
  }

  /**
   The arguments of a payload: the one sequence of the type's length that joins to the payload
   with no NUL before the last argument, or an error when there is none.
   */
  method SplitArgs(ptype: PacketType, payload: bytes) returns (r: Result<seq<bytes>, CodecError>)
    ensures r.Ok? ==> IsSplit(ptype.ArgCount(), payload, r.value)
    ensures r.Err? ==> r.error == Malformed(ptype) && forall args :: !IsSplit(ptype.ArgCount(), payload, args)
  {
    var count := ptype.ArgCount();
    if count == 0 {
      if payload != [] {
        return Err(MalformedBody(ptype, ExpectedEmptyPayload));
      }
      return Ok([]);
    }
    var args := SplitFront(count, payload);
    if args.None? {
      NoReading(count, payload);
      return Err(MalformedBody(ptype, MissingSeparator));
    }
    return Ok(args.value);
  }

  /** Moving one argument from the payload to the list. */
  lemma SplitAdvance(args: seq<bytes>, count: nat, rest: bytes, k: nat)
    requires count >= 2 && k < |rest| && rest[k] == 0 && 0 !in rest[..k]
    ensures Prefixed(args, Split(count, rest)) == Prefixed(args + [rest[..k]], Split(count - 1, rest[k + 1..]))
  {
    FoundFirst(rest, k);
    assert Split(count, rest) == Prefixed([rest[..k]], Split(count - 1, rest[k + 1..]));
    hide Split;
    PrefixedTwice(args, [rest[..k]], Split(count - 1, rest[k + 1..]));
  }

  lemma SplitEnds(count: nat, rest: bytes)
    ensures Split(1, rest) == Some([rest])
    ensures count >= 2 && 0 !in rest ==> Split(count, rest) == None
  {
    var k := FindNul(rest);
    if k < |rest| {
      assert rest[k] in rest;
    }
  }

  method SplitFront(count: nat, payload: bytes) returns (r: Option<seq<bytes>>)
    requires count > 0
    ensures r == Split(count, payload)
  {
    hide Split;
    var rest := payload;
    var args: seq<bytes> := [];
    PrefixedNone(Split(count, payload));
    for i := 0 to count - 1
      invariant Split(count, payload) == Prefixed(args, Split(count - i, rest))
    {
      var pos := Position(rest);
      if pos.None? {
        SplitEnds(count - i, rest);
        return None;
      }
      SplitAdvance(args, count - i, rest, pos.value);
      args, rest := args + [rest[..pos.value]], rest[pos.value + 1..];
    }
    SplitEnds(count, rest);
    return Some(args + [rest]);
  }

  class GearmanCodec {
    const maxPayloadSize: u32

    constructor (maxPayloadSize: u32)
      ensures this.maxPayloadSize == maxPayloadSize
    {
      this.maxPayloadSize := maxPayloadSize;
    }

    method Decode(src: BytesMut) returns (r: Result<Option<Packet>, CodecError>)
      modifies src
      ensures src.data == Decode1(maxPayloadSize, old(src.data)).Rest(old(src.data))
      ensures r == match Decode1(maxPayloadSize, old(src.data))
                   case NeedMore => Ok(None)
                   case Got(p, _) => Ok(Some(p))
                   case Failed(e, _) => Err(e)
    {
      if |src.data| < HEADER_LEN {
        return Ok(None);
      }
      var magic := MagicOf(src.data[..4]);
      if magic.None? {
        return Err(BadMagic(src.data[..4]));
      }
      var ptype := FromCode(FromBE32(src.data[4..8]));
      if ptype.Err? {
        return Err(ptype.error);
      }
      var len := FromBE32(src.data[8..12]);
      if len > maxPayloadSize {
        return Err(PayloadTooLarge(len));
      }
      if |src.data| < HEADER_LEN + len {
        return Ok(None);
      }
      ghost var data := src.data;
      src.Advance(HEADER_LEN);
      var payload := src.SplitTo(len);
      assert payload == data[HEADER_LEN..HEADER_LEN + len];
      assert src.data == data[HEADER_LEN + len..];
      var args := SplitArgs(ptype.value, payload);
      if args.Err? {
        assert Split(ptype.value.ArgCount(), payload).None?;
        return Err(args.error);
      }
      SplitIff(ptype.value.ArgCount(), payload, args.value);
      return Ok(Some(Packet(magic.value, ptype.value, args.value)));
    }

    /** Appends the wire form of a packet that has the right arity and fits; refuses any other. */
    method Encode(p: Packet, dst: BytesMut) returns (r: Result<(), CodecError>)
      modifies dst
      ensures r.Ok? <==> Fits(maxPayloadSize, p)
      ensures r.Ok? ==> dst.data == old(dst.data) + Wire(p)
      ensures r.Err? ==> dst.data == old(dst.data)
      ensures r.Err? ==> r.error == if |p.args| != p.ptype.ArgCount()
                         then WrongArgCount(p.ptype, p.ptype.ArgCount(), |p.args|)
                         else PayloadTooLarge(maxPayloadSize)
    {
      var expected := p.ptype.ArgCount();
      if |p.args| != expected {
        return Err(WrongArgCount(p.ptype, expected, |p.args|));
      }
      var bodyLen := EncodedBodyLen(p);
      if bodyLen > maxPayloadSize {
        return Err(PayloadTooLarge(maxPayloadSize));
      }
      dst.Extend(p.magic.Bytes());
      dst.Extend(BE32(p.ptype.Code()));
      dst.Extend(BE32(bodyLen));
      PutArgs(p.args, dst);
      return Ok(());
    }
  }

  method PutArgs(args: seq<bytes>, dst: BytesMut)
    modifies dst
    ensures dst.data == old(dst.data) + Join(args)
  {
    hide Join;
    JoinNone(args);
    for i := 0 to |args|
      invariant dst.data == old(dst.data) + Join(args[..i])
    {
      JoinNext(args, i);
      if i > 0 {
        Assoc(old(dst.data), Join(args[..i]), [0]);
        Assoc(old(dst.data), Join(args[..i]) + [0], args[i]);
        dst.Extend([0]);
      }
      dst.Extend(args[i]);
    }
    assert args[..|args|] == args;
  }

  lemma JoinNone(args: seq<bytes>)
    ensures Join(args[..0]) == []
  {
  }

  lemma JoinNext(args: seq<bytes>, i: nat)
    requires i < |args|
    ensures Join(args[..i + 1]) == if i == 0 then Join(args[..0]) + args[0] else Join(args[..i]) + [0] + args[i]
  {
    hide Join;
    JoinSnoc(args[..i], args[i]);
    PrefixNext(args, i);
    JoinNone(args);
  }

  lemma {:induction false} JoinSnoc(args: seq<bytes>, last: bytes)
    ensures Join(args + [last]) == if args == [] then last else Join(args) + [0] + last
  {
    if |args| > 1 {
      JoinSnoc(args[1..], last);
      assert (args + [last])[1..] == args[1..] + [last];
    } else if |args| == 1 {
      assert (args + [last])[1..] == [last];
    }
  }

  /** The argument lengths plus one separator between neighbours. */
  method EncodedBodyLen(p: Packet) returns (n: nat)
    ensures n == |Join(p.args)|
  {
    var sum := 0;
    JoinNone(p.args);
    for i := 0 to |p.args|
      invariant i == 0 ==> sum == 0
      invariant i > 0 ==> sum + (i - 1) == |Join(p.args[..i])|
    {
      JoinNext(p.args, i);
      sum := sum + |p.args[i]|;
    }
    assert p.args[..|p.args|] == p.args;
    n := sum + if |p.args| == 0 then 0 else |p.args| - 1;
  }

  /** The reading half of a framed connection: one buffer, one codec, packets in order. */
  class FramedReader {
    const codec: GearmanCodec
    const buffer: BytesMut
    var packets: seq<Packet>
    var error: Option<CodecError>

    constructor (codec: GearmanCodec)
      ensures this.codec == codec && fresh(buffer) && View() == Reader([], None, [])
    {
      this.codec := codec;
      var b := new BytesMut([]);
      buffer, packets, error := b, [], None;
    }

    ghost function View(): Reader
      reads this, buffer
    {
      Reader(packets, error, buffer.data)
    }

    /** Appends what a read returned and decodes until the codec wants more or fails. */
    method Read(chunk: bytes)
      modifies this, buffer
      ensures View() == Feed(codec.maxPayloadSize, old(View()), chunk)
    {
      hide Decode1;
      buffer.Extend(chunk);
      ghost var whole := Feed(codec.maxPayloadSize, old(View()), chunk);
      assert buffer.data + [] == buffer.data;
      while error.None?
        invariant error.None? ==> whole == Feed(codec.maxPayloadSize, View(), [])
        invariant error.Some? ==> whole == View()
        decreases error.None?, |buffer.data|
      {
        assert buffer.data + [] == buffer.data;
        ghost var data := buffer.data;
        var r := codec.Decode(buffer);
        assert buffer.data + [] == buffer.data;
        match r
        case Ok(None) =>
          return;
        case Ok(Some(p)) =>
          DecodedIsWire(codec.maxPayloadSize, data, p, buffer.data);
          ghost var tail := Drain(codec.maxPayloadSize, buffer.data);
          assert packets + ([p] + tail.packets) == (packets + [p]) + tail.packets;
          packets := packets + [p];
        case Err(e) =>
          error := Some(e);
      }
    }
  }
}
