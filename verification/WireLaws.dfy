/**
 The wire format byte by byte, as the "Binary Packet" part of gearmand's PROTOCOL file has it, and
 when the decoder of src/protocol/codec.rs waits or refuses.
 */
module WireLaws {
  import opened Wrappers
  import opened Protocol
  import opened Codec

  /** A number by its bytes, the most significant first. */
  function BigEndian(b: bytes): nat {
    if b == [] then 0 else 0x100 * BigEndian(b[..|b| - 1]) + b[|b| - 1] as int
  }

  lemma BigEndianFour(a: byte, b: byte, c: byte, d: byte)
    ensures BigEndian([a, b, c, d]) == a as int * 0x100_0000 + b as int * 0x1_0000 + c as int * 0x100 + d as int
  {
    assert [a, b, c, d][..3] == [a, b, c] && [a, b, c][..2] == [a, b] && [a, b][..1] == [a] && [a][..0] == [];
    assert BigEndian([a]) == a as int;
    assert BigEndian([a, b]) == 0x100 * a as int + b as int;
    assert BigEndian([a, b, c]) == 0x100 * BigEndian([a, b]) + c as int;
    assert BigEndian([a, b, c, d]) == 0x100 * BigEndian([a, b, c]) + d as int;
  }

  lemma BE32IsBigEndian(n: u32)
    ensures BigEndian(BE32(n)) == n
  {
    var b := BE32(n);
    BE32Reads(n);
    assert b == [b[0], b[1], b[2], b[3]];
    BigEndianFour(b[0], b[1], b[2], b[3]);
  }

  /** A packet's bytes: a NUL, "REQ" or "RES", its type and its body's length as big-endian words, its body. */
  lemma FrameLayout(p: Packet)
    requires |Join(p.args)| < 0x1_0000_0000
    ensures var w := Wire(p);
      && w[..4] == [0, 82, 69, if p.magic.Req? then 81 else 83]
      && BigEndian(w[4..8]) == p.ptype.Code()
      && BigEndian(w[8..12]) == |w| - 12 == |Join(p.args)|
      && w[12..] == Join(p.args)
  {
    var w, h := Wire(p), p.magic.Bytes();
    var code, len := BE32(p.ptype.Code()), BE32(|Join(p.args)|);
    BE32IsBigEndian(p.ptype.Code());
    BE32IsBigEndian(|Join(p.args)|);
    hide Join, BE32, BigEndian;
    assert w == h + code + len + Join(p.args);
    assert w[..4] == h && w[4..8] == code && w[8..12] == len && w[12..] == Join(p.args);
  }

  // ---------- The packet types of the protocol ----------

  /** The packet type of each number, with the number of its arguments. */
  function Listed(code: nat): Option<(PacketType, nat)> {
    match code
    case 1 => Some((CanDo, 1))
    case 2 => Some((CantDo, 1))
    case 3 => Some((ResetAbilities, 0))
    case 4 => Some((PreSleep, 0))
    case 6 => Some((Noop, 0))
    case 7 => Some((SubmitJob, 3))
    case 8 => Some((JobCreated, 1))
    case 9 => Some((GrabJob, 0))
    case 10 => Some((NoJob, 0))
    case 11 => Some((JobAssign, 3))
    case 12 => Some((WorkStatus, 3))
    case 13 => Some((WorkComplete, 2))
    case 14 => Some((WorkFail, 1))
    case 15 => Some((GetStatus, 1))
    case 16 => Some((EchoReq, 1))
    case 17 => Some((EchoRes, 1))
    case 18 => Some((SubmitJobBg, 3))
    case 19 => Some((Error, 2))
    case 20 => Some((StatusRes, 5))
    case 21 => Some((SubmitJobHigh, 3))
    case 22 => Some((SetClientId, 1))
    case 23 => Some((CanDoTimeout, 2))
    case 24 => Some((AllYours, 0))
    case 25 => Some((WorkException, 2))
    case 26 => Some((OptionReq, 1))
    case 27 => Some((OptionRes, 1))
    case 28 => Some((WorkData, 2))
    case 29 => Some((WorkWarning, 2))
    case 30 => Some((GrabJobUniq, 0))
    case 31 => Some((JobAssignUniq, 4))
    case 32 => Some((SubmitJobHighBg, 3))
    case 33 => Some((SubmitJobLow, 3))
    case 34 => Some((SubmitJobLowBg, 3))
    case 35 => Some((SubmitJobSched, 8))
    case 36 => Some((SubmitJobEpoch, 4))
    case 37 => Some((SubmitReduceJob, 5))
    case 38 => Some((SubmitReduceJobBackground, 5))
    case 39 => Some((GrabJobAll, 0))
    case 40 => Some((JobAssignAll, 5))
    case 41 => Some((GetStatusUnique, 1))
    case 42 => Some((StatusResUnique, 6))
    case _ => None
  }

  /** The numbers and argument counts of the types are those that the protocol lists. */
  lemma TypesAreListed(t: PacketType)
    ensures Listed(t.Code()) == Some((t, t.ArgCount()))
  {
  }

  // ---------- When the decoder waits ----------

  function FrameOf(magic: PacketMagic, ptype: PacketType, body: bytes): bytes
    requires |body| < 0x1_0000_0000
  {
    Header(magic, ptype, |body|) + body
  }

  ghost predicate BeginsFrame(max: u32, data: bytes) {
    exists magic, ptype, body :: BeginsThis(max, data, magic, ptype, body)
  }

  /** The bytes are the beginning of this frame, and not all of it. */
  predicate BeginsThis(max: u32, data: bytes, magic: PacketMagic, ptype: PacketType, body: bytes) {
    |body| <= max && data < FrameOf(magic, ptype, body)
  }

  lemma WaitsForFrame(max: u32, data: bytes)
    requires |data| >= HEADER_LEN && Decode1(max, data).NeedMore?
    ensures BeginsFrame(max, data)
  {
    hide Split;
    var magic, ptype, len := MagicOf(data[..4]).value, FromCode(FromBE32(data[4..8])).value, FromBE32(data[8..12]);
    HeaderOfFields(data, magic, ptype);
    assert |data| < HEADER_LEN + len && len <= max;
    hide Header, FromBE32, FromCode, MagicOf, Decode1;
    var h, rest, more := data[..HEADER_LEN], data[HEADER_LEN..], seq(HEADER_LEN + len - |data|, _ => 0);
    assert data == h + rest;
    ProperBeginning(h, rest, more);
    assert BeginsThis(max, data, magic, ptype, rest + more);
  }

  lemma ProperBeginning(h: bytes, rest: bytes, more: bytes)
    requires more != []
    ensures h + rest < h + (rest + more)
  {
    Assoc(h, rest, more);
  }

  lemma BegunWaits(max: u32, data: bytes, magic: PacketMagic, ptype: PacketType, body: bytes)
    requires |data| >= HEADER_LEN && BeginsThis(max, data, magic, ptype, body)
    ensures Decode1(max, data).NeedMore?
  {
    var h := Header(magic, ptype, |body|);
    HeaderFields(magic, ptype, |body|);
    hide Header, Split, FromBE32, FromCode, MagicOf;
    assert data[..HEADER_LEN] == h;
    assert data[..4] == h[..4] && data[4..8] == h[4..8] && data[8..12] == h[8..12];
  }

  /**
   The decoder asks for more exactly while it has less than a header, whatever the bytes are, or a
   proper beginning of a frame with a valid header and a body within the cap.
   */
  lemma WaitsIff(max: u32, data: bytes)
    ensures Decode1(max, data).NeedMore? <==> |data| < 12 || BeginsFrame(max, data)
  {
    hide BeginsThis, Header, Split;
    if |data| >= HEADER_LEN {
      if Decode1(max, data).NeedMore? {
        WaitsForFrame(max, data);
      }
      if magic, ptype, body :| BeginsThis(max, data, magic, ptype, body) {
        BegunWaits(max, data, magic, ptype, body);
      }
    }
  }

  // ---------- What the decoder refuses ----------

  predicate HasMagic(data: bytes)
    requires |data| >= 4
  {
    data[..4] == [0, 82, 69, 81] || data[..4] == [0, 82, 69, 83]
  }

  ghost predicate HasType(data: bytes, t: PacketType)
    requires |data| >= 12
  {
    HasMagic(data) && BigEndian(data[4..8]) == t.Code()
  }

  ghost predicate HasNoReading(count: nat, payload: bytes) {
    forall args :: !IsSplit(count, payload, args)
  }

  /** Each error names the first field that is wrong: magic, type, length, then the body. */
  ghost predicate IsWrong(max: u32, data: bytes, e: CodecError)
    requires |data| >= 12
  {
    match e
    case BadMagic(m) => !HasMagic(data) && m == data[..4]
    case UnknownPacketType(c) =>
      HasMagic(data) && BigEndian(data[4..8]) == c && forall t: PacketType :: t.Code() != c
    case PayloadTooLarge(n) => (exists t :: HasType(data, t)) && BigEndian(data[8..12]) == n && n > max
    case MalformedBody(t, reason) =>
      && HasType(data, t)
      && var len := BigEndian(data[8..12]);
      && len <= max && 12 + len <= |data|
      && HasNoReading(t.ArgCount(), data[12..12 + len])
      && reason == if t.ArgCount() == 0 then ExpectedEmptyPayload else MissingSeparator
    case WrongArgCount(_, _, _) => false
  }

  lemma WordIs(b: bytes)
    requires |b| == 4
    ensures BigEndian(b) == FromBE32(b)
  {
    assert b == [b[0], b[1], b[2], b[3]];
    BigEndianFour(b[0], b[1], b[2], b[3]);
  }

  lemma SplitFailsIff(count: nat, payload: bytes)
    ensures Split(count, payload).None? <==> HasNoReading(count, payload)
  {
    if Split(count, payload).None? {
      NoReading(count, payload);
    }
  }

  lemma TypeIs(data: bytes, t: PacketType)
    requires |data| >= 12
    ensures HasType(data, t) <==> MagicOf(data[..4]).Some? && FromCode(FromBE32(data[4..8])) == Ok(t)
  {
    WordIs(data[4..8]);
    FromCodeIff(FromBE32(data[4..8]), t);
    hide FromCode, FromBE32, BigEndian;
  }

  lemma TypeIsNone(data: bytes)
    requires |data| >= 12
    ensures FromCode(FromBE32(data[4..8])).Err? <==> forall t: PacketType :: t.Code() != BigEndian(data[4..8])
    ensures var e := FromCode(FromBE32(data[4..8]));
      e.Err? ==> e.error.UnknownPacketType? && e.error.code == BigEndian(data[4..8])
  {
    var code := FromBE32(data[4..8]);
    WordIs(data[4..8]);
    UnassignedCodes(code);
    forall t: PacketType ensures FromCode(code) == Ok(t) <==> t.Code() == code {
      FromCodeIff(code, t);
    }
    hide FromCode, FromBE32, BigEndian;
    if FromCode(code).Ok? {
      assert FromCode(code).value.Code() == code;
    }
  }

  lemma MagicIs(data: bytes)
    requires |data| >= 4
    ensures MagicOf(data[..4]).Some? <==> HasMagic(data)
  {
  }

  predicate FailsWith(d: Decoded, e: CodecError) {
    d.Failed? && d.error == e
  }

  /** A frame whose header is right fails by its length or its body. */
  lemma BodyFailsIff(max: u32, data: bytes, t: PacketType, e: CodecError)
    requires |data| >= 12 && HasType(data, t) && (forall u :: HasType(data, u) ==> u == t)
    ensures FailsWith(Decode1(max, data), e) <==> IsWrong(max, data, e)
  {
    var len := FromBE32(data[8..12]);
    TypeIs(data, t);
    WordIs(data[8..12]);
    hide FromCode, FromBE32, BigEndian, Split, MagicOf, PacketType.ArgCount;
    assert e.UnknownPacketType? ==> !IsWrong(max, data, e);
    hide HasMagic, HasType, PacketType.Code;
    if HEADER_LEN + len <= |data| {
      SplitFailsIff(t.ArgCount(), data[HEADER_LEN..HEADER_LEN + len]);
    }
    hide HasNoReading;
  }

  lemma HeaderFailsIff(max: u32, data: bytes, e: CodecError)
    requires |data| >= 12 && forall t :: !HasType(data, t)
    ensures FailsWith(Decode1(max, data), e) <==> IsWrong(max, data, e)
  {
    TypeIsNone(data);
    MagicIs(data);
    if MagicOf(data[..4]).Some? {
      NoTypeHere(data);
    }
    hide FromCode, FromBE32, BigEndian, Split, HasType, PacketType.Code, HasMagic, HasNoReading, MagicOf;
  }

  lemma NoTypeHere(data: bytes)
    requires |data| >= 12 && (forall t :: !HasType(data, t)) && MagicOf(data[..4]).Some?
    ensures FromCode(FromBE32(data[4..8])).Err?
  {
    hide FromBE32, BigEndian;
    if FromCode(FromBE32(data[4..8])).Ok? {
      TypeIs(data, FromCode(FromBE32(data[4..8])).value);
    }
  }

  /** The decoder fails with an error exactly when that is what is wrong with the bytes. */
  lemma FailsIff(max: u32, data: bytes, e: CodecError)
    requires |data| >= 12
    ensures FailsWith(Decode1(max, data), e) <==> IsWrong(max, data, e)
  {
    hide Decode1, IsWrong, FromCode, FromBE32;
    if t :| HasType(data, t) {
      forall u | HasType(data, u) ensures u == t {
        TypeIs(data, t);
        TypeIs(data, u);
      }
      BodyFailsIff(max, data, t, e);
    } else {
      HeaderFailsIff(max, data, e);
    }
  }
}
