/**
 Packet types, headers and packets of the Gearman binary protocol
 (src/protocol/command.rs, header.rs and packet.rs).
 */
module Protocol {
  import opened Wrappers

  newtype byte = x: int | 0 <= x < 256
  type bytes = seq<byte>

  function OrEmpty(b: Option<bytes>): bytes {
    match b case Some(x) => x case None => []
  }
  type u32 = x: int | 0 <= x < 0x1_0000_0000

  const HEADER_LEN: nat := 12
  const REQ_MAGIC: bytes := [0, 82, 69, 81]
  const RES_MAGIC: bytes := [0, 82, 69, 83]

  datatype PacketMagic = Req | Res {
    function Bytes(): bytes {
      if Req? then REQ_MAGIC else RES_MAGIC
    }
  }

  datatype PacketType =
    | CanDo | CantDo | ResetAbilities | PreSleep | Noop | SubmitJob | JobCreated | GrabJob
    | NoJob | JobAssign | WorkStatus | WorkComplete | WorkFail | GetStatus | EchoReq | EchoRes
    | SubmitJobBg | Error | StatusRes | SubmitJobHigh | SetClientId | CanDoTimeout | AllYours
    | WorkException | OptionReq | OptionRes | WorkData | WorkWarning | GrabJobUniq
    | JobAssignUniq | SubmitJobHighBg | SubmitJobLow | SubmitJobLowBg | SubmitJobSched
    | SubmitJobEpoch | SubmitReduceJob | SubmitReduceJobBackground | GrabJobAll | JobAssignAll
    | GetStatusUnique | StatusResUnique
  {
    /** The wire code of the packet type. */
    function Code(): u32 {
      match this
      case CanDo => 1
      case CantDo => 2
      case ResetAbilities => 3
      case PreSleep => 4
      case Noop => 6
      case SubmitJob => 7
      case JobCreated => 8
      case GrabJob => 9
      case NoJob => 10
      case JobAssign => 11
      case WorkStatus => 12
      case WorkComplete => 13
      case WorkFail => 14
      case GetStatus => 15
      case EchoReq => 16
      case EchoRes => 17
      case SubmitJobBg => 18
      case Error => 19
      case StatusRes => 20
      case SubmitJobHigh => 21
      case SetClientId => 22
      case CanDoTimeout => 23
      case AllYours => 24
      case WorkException => 25
      case OptionReq => 26
      case OptionRes => 27
      case WorkData => 28
      case WorkWarning => 29
      case GrabJobUniq => 30
      case JobAssignUniq => 31
      case SubmitJobHighBg => 32
      case SubmitJobLow => 33
      case SubmitJobLowBg => 34
      case SubmitJobSched => 35
      case SubmitJobEpoch => 36
      case SubmitReduceJob => 37
      case SubmitReduceJobBackground => 38
      case GrabJobAll => 39
      case JobAssignAll => 40
      case GetStatusUnique => 41
      case StatusResUnique => 42
    }

    /** Number of NUL-separated arguments in the body of this packet type. */
    function ArgCount(): nat {
      match this
      case ResetAbilities | PreSleep | Noop | GrabJob | NoJob | AllYours | GrabJobUniq
         | GrabJobAll => 0
      case CanDo | CantDo | JobCreated | WorkFail | GetStatus | EchoReq | EchoRes
         | SetClientId | OptionReq | OptionRes | GetStatusUnique => 1
      case Error | CanDoTimeout | WorkComplete | WorkException | WorkData | WorkWarning => 2
      case SubmitJob | SubmitJobBg | SubmitJobHigh | SubmitJobHighBg | SubmitJobLow
         | SubmitJobLowBg | WorkStatus | JobAssign => 3
      case SubmitJobEpoch | JobAssignUniq => 4
      case SubmitReduceJob | SubmitReduceJobBackground | JobAssignAll | StatusRes => 5
      case StatusResUnique => 6
      case SubmitJobSched => 8
    }
  }

  datatype MalformedReason = ExpectedEmptyPayload | MissingSeparator

  /** The errors of the codec (src/error.rs). */
  datatype CodecError =
    | BadMagic(magic: bytes)
    | UnknownPacketType(code: u32)
    | PayloadTooLarge(len: u32)
    | MalformedBody(ptype: PacketType, reason: MalformedReason)
    | WrongArgCount(ptype: PacketType, expected: nat, actual: nat)

  /** The packet type of a wire code; codes 0, 5 and those past 42 name none. */
  function FromCode(code: u32): Result<PacketType, CodecError>
  {
    match code
    case 1 => Ok(CanDo)
    case 2 => Ok(CantDo)
    case 3 => Ok(ResetAbilities)
    case 4 => Ok(PreSleep)
    case 6 => Ok(Noop)
    case 7 => Ok(SubmitJob)
    case 8 => Ok(JobCreated)
    case 9 => Ok(GrabJob)
    case 10 => Ok(NoJob)
    case 11 => Ok(JobAssign)
    case 12 => Ok(WorkStatus)
    case 13 => Ok(WorkComplete)
    case 14 => Ok(WorkFail)
    case 15 => Ok(GetStatus)
    case 16 => Ok(EchoReq)
    case 17 => Ok(EchoRes)
    case 18 => Ok(SubmitJobBg)
    case 19 => Ok(Error)
    case 20 => Ok(StatusRes)
    case 21 => Ok(SubmitJobHigh)
    case 22 => Ok(SetClientId)
    case 23 => Ok(CanDoTimeout)
    case 24 => Ok(AllYours)
    case 25 => Ok(WorkException)
    case 26 => Ok(OptionReq)
    case 27 => Ok(OptionRes)
    case 28 => Ok(WorkData)
    case 29 => Ok(WorkWarning)
    case 30 => Ok(GrabJobUniq)
    case 31 => Ok(JobAssignUniq)
    case 32 => Ok(SubmitJobHighBg)
    case 33 => Ok(SubmitJobLow)
    case 34 => Ok(SubmitJobLowBg)
    case 35 => Ok(SubmitJobSched)
    case 36 => Ok(SubmitJobEpoch)
    case 37 => Ok(SubmitReduceJob)
    case 38 => Ok(SubmitReduceJobBackground)
    case 39 => Ok(GrabJobAll)
    case 40 => Ok(JobAssignAll)
    case 41 => Ok(GetStatusUnique)
    case 42 => Ok(StatusResUnique)
    case other => Err(UnknownPacketType(other))
  }

  lemma FromCodeOfCode(t: PacketType)
    ensures FromCode(t.Code()) == Ok(t)
  {
  }

  lemma CodeOfFromCode(code: u32)
    ensures FromCode(code).Ok? ==> FromCode(code).value.Code() == code
  {
  }

  /** The two tables are inverse to each other, and an unassigned code is reported as itself. */
  lemma FromCodeIff(code: u32, t: PacketType)
    ensures FromCode(code) == Ok(t) <==> t.Code() == code
  {
    FromCodeOfCode(t);
    CodeOfFromCode(code);
  }

  lemma UnassignedCodes(code: u32)
    ensures FromCode(code).Err? <==> code == 0 || code == 5 || 42 < code
    ensures FromCode(code).Err? ==> FromCode(code).error == UnknownPacketType(code)
  {
  }

  datatype Packet = Packet(magic: PacketMagic, ptype: PacketType, args: seq<bytes>) {
    /** The argument at `index`, or the empty string when the packet has none there. */
    function ArgOrEmpty(index: nat): bytes {
      if index < |args| then args[index] else []
    }
  }
}
