/**
 The client's calls (src/client/mod.rs): the packet each of them makes, and the server and channel
 it goes to. What comes back is the business of the connection actor.
 */
module ClientApi {
  import opened Wrappers
  import opened Protocol
  import opened Decimal
  import opened ServerPool
  import ClientCore
  import Codec
  import Ketama
  import KetamaLaws

  datatype Priority = Low | Normal | High

  datatype Request =
    | Submit(func: bytes, unique: Option<bytes>, payload: bytes, priority: Priority, background: bool)
    | SubmitEpoch(func: bytes, unique: Option<bytes>, epoch: nat, payload: bytes)
    | SubmitReduce(func: bytes, unique: Option<bytes>, reducer: bytes, payload: bytes, background: bool)
    | GetStatus(handle: bytes)
    | GetStatusUnique(id: bytes)
  {
    predicate IsSubmit() {
      Submit? || SubmitEpoch? || SubmitReduce?
    }

    /** Epoch jobs have no stream. */
    predicate Foreground() {
      (Submit? || SubmitReduce?) && !background
    }

    function Kind(): ClientCore.CommandKind {
      if GetStatus? then ClientCore.GetStatus
      else if GetStatusUnique? then ClientCore.GetStatusUnique
      else ClientCore.Submit(Foreground())
    }

    /** The names it sends as arguments before the last. */
    predicate Clean() {
      match this
      case Submit(f, u, _, _, _) => 0 !in f && 0 !in OrEmpty(u)
      case SubmitEpoch(f, u, _, _) => 0 !in f && 0 !in OrEmpty(u)
      case SubmitReduce(f, u, r, _, _) => 0 !in f && 0 !in OrEmpty(u) && 0 !in r
      case _ => true
    }

    /** The same request with an absent unique id written as an empty one. */
    function Plain(): Request {
      if IsSubmit() then this.(unique := Some(OrEmpty(unique))) else this
    }

    function Packet(): Packet {
      match this
      case Submit(f, u, p, prio, bg) => Protocol.Packet(Req, SubmitType(prio, bg), [f, OrEmpty(u), p])
      case SubmitEpoch(f, u, e, p) => Protocol.Packet(Req, SubmitJobEpoch, [f, OrEmpty(u), Format(e), p])
      case SubmitReduce(f, u, r, p, bg) =>
        Protocol.Packet(Req, if bg then SubmitReduceJobBackground else SubmitReduceJob, [f, OrEmpty(u), r, [], p])
      case GetStatus(h) => Protocol.Packet(Req, PacketType.GetStatus, [h])
      case GetStatusUnique(u) => Protocol.Packet(Req, PacketType.GetStatusUnique, [u])
    }
  }

  function SubmitType(priority: Priority, background: bool): PacketType {
    match (priority, background)
    case (Normal, false) => SubmitJob
    case (Normal, true) => SubmitJobBg
    case (High, false) => SubmitJobHigh
    case (High, true) => SubmitJobHighBg
    case (Low, false) => SubmitJobLow
    case (Low, true) => SubmitJobLowBg
  }

  /** Every request has the arity of its type, and is readable exactly when its names are NUL-free. */
  lemma RequestsAreReadableIff(max: u32, r: Request, rest: bytes)
    requires |Codec.Join(r.Packet().args)| <= max
    ensures |r.Packet().args| == r.Packet().ptype.ArgCount()
    ensures Codec.Decode1(max, Codec.Wire(r.Packet()) + rest) == Codec.Got(r.Packet(), rest) <==> r.Clean()
  {
    hide Codec.Join, Codec.Wire, Codec.Decode1;
    var args := r.Packet().args;
    assert |args| == r.Packet().ptype.ArgCount();
    assert Codec.Separable(args) <==> r.Clean() by {
      if Codec.Separable(args) && |args| > 1 {
        assert 0 !in args[0] && 0 !in args[1] && (|args| > 3 ==> 0 !in args[2]);
      }
    }
    Codec.EncodedComesBackIff(max, r.Packet(), rest);
  }

  lemma PacketsTellRequestsApart(a: Request, b: Request)
    ensures a.Packet() == b.Packet() <==> a.Plain() == b.Plain()
  {
    var p, q := a.Packet(), b.Packet();
    if p == q {
      assert forall i :: 0 <= i < |p.args| ==> p.args[i] == q.args[i];
      if a.SubmitEpoch? {
        assert Value(p.args[2]) == a.epoch && Value(q.args[2]) == b.epoch;
      }
    }
  }

  /**
   Two requests with readable names have the same bytes exactly when they ask for the same thing,
   but for an absent unique id, which is an empty one on the wire.
   */
  lemma WireTellsRequestsApart(max: u32, a: Request, b: Request)
    requires a.Clean() && b.Clean()
    requires |Codec.Join(a.Packet().args)| <= max && |Codec.Join(b.Packet().args)| <= max
    ensures Codec.Wire(a.Packet()) == Codec.Wire(b.Packet()) <==> a.Plain() == b.Plain()
  {
    hide Codec.Join, Codec.Wire, Codec.Decode1;
    RequestsAreReadableIff(max, a, []);
    RequestsAreReadableIff(max, b, []);
    PacketsTellRequestsApart(a, b);
  }

  // ---------- What a server reads in a request ----------

  /** The request that a packet makes, by its type and arguments. */
  function Asked(p: Protocol.Packet): Option<Request> {
    if p.magic.Res? || |p.args| != p.ptype.ArgCount() then None
    else match p.ptype
      case SubmitJob => Some(Submit(p.args[0], Some(p.args[1]), p.args[2], Normal, false))
      case SubmitJobBg => Some(Submit(p.args[0], Some(p.args[1]), p.args[2], Normal, true))
      case SubmitJobHigh => Some(Submit(p.args[0], Some(p.args[1]), p.args[2], High, false))
      case SubmitJobHighBg => Some(Submit(p.args[0], Some(p.args[1]), p.args[2], High, true))
      case SubmitJobLow => Some(Submit(p.args[0], Some(p.args[1]), p.args[2], Low, false))
      case SubmitJobLowBg => Some(Submit(p.args[0], Some(p.args[1]), p.args[2], Low, true))
      case SubmitJobEpoch =>
        (match Parse(U64_MAX, p.args[2])
         case Some(e) => Some(SubmitEpoch(p.args[0], Some(p.args[1]), e, p.args[3]))
         case None => None)
      case SubmitReduceJob => Some(SubmitReduce(p.args[0], Some(p.args[1]), p.args[2], p.args[4], false))
      case SubmitReduceJobBackground => Some(SubmitReduce(p.args[0], Some(p.args[1]), p.args[2], p.args[4], true))
      case GetStatus => Some(Request.GetStatus(p.args[0]))
      case GetStatusUnique => Some(Request.GetStatusUnique(p.args[0]))
      case _ => None
  }

  /** Whether the server will send the submitter the events of the job. */
  predicate SendsEvents(t: PacketType) {
    t in {SubmitJob, SubmitJobHigh, SubmitJobLow, SubmitReduceJob}
  }

  /**
   A server reads in a request's packet just what was asked: function, unique id, priority,
   reducer, epoch and payload; and the actor keeps a stream exactly when events will come for it.
   */
  lemma ServerReadsWhatIsAsked(r: Request, id: ClientCore.Id)
    requires r.SubmitEpoch? ==> r.epoch <= U64_MAX
    ensures Asked(r.Packet()) == Some(r.Plain())
    ensures r.IsSubmit() ==> r.Packet().args[1] == (if r.unique.Some? then r.unique.value else [])
    ensures Ask(r, id).kind == ClientCore.Submit(true) <==> SendsEvents(r.Packet().ptype)
    ensures Ask(r, id).kind == ClientCore.Submit(false) <==>
      r.Packet().ptype in {SubmitJobBg, SubmitJobHighBg, SubmitJobLowBg, SubmitJobEpoch, SubmitReduceJobBackground}
    ensures Ask(r, id).kind == ClientCore.GetStatus <==> r.Packet().ptype == PacketType.GetStatus
    ensures Ask(r, id).kind == ClientCore.GetStatusUnique <==> r.Packet().ptype == PacketType.GetStatusUnique
    ensures Ask(r, id).id == id && (Ask(r, id).fits <==> |Codec.Join(r.Packet().args)| <= 64 * 1024 * 1024)
  {
    hide Format, Parse, Codec.Join;
    if r.SubmitEpoch? {
      ParseFormat(U64_MAX, r.epoch);
    }
  }

  // ---------- Routing ----------

  /**
   Submissions with one unique id meet on one server, whatever happens to the others, as long as
   the servers on the id's chain up to that one are as they were.
   */
  lemma SameUniqueSameServer(points: seq<Ketama.Point<nat>>, hash: u32, up: seq<bool>, up': seq<bool>, k: nat)
    requires points != [] && |up| == |up'|
    requires var first := points[Ketama.Start(points, hash)].server;
      && Ketama.ChainHit(points, first, IsUp(up), k)
      && forall j :: 0 <= j <= k ==>
           IsUp(up')(Ketama.Orbit(points, first, j).value) == IsUp(up)(Ketama.Orbit(points, first, j).value)
    ensures Ketama.Chosen(points, hash, IsUp(up')) == Ketama.Chosen(points, hash, IsUp(up))
    ensures Ketama.Chosen(points, hash, IsUp(up)).Some?
  {
    KetamaLaws.ChosenOnHit(points, hash, IsUp(up), k);
    KetamaLaws.ChoiceIsSticky(points, hash, IsUp(up), IsUp(up'), k);
  }

  /** What a call leaves on a server's channel. */
  datatype Sent = Sent(packet: Packet, command: ClientCore.Command)

  /** A submission on its way: who will answer, and on which oneshot. */
  datatype Submission = Submission(server: nat, id: ClientCore.Id, unique: Option<bytes>)

  datatype JobHandle = JobHandle(server: nat, handle: bytes, unique: Option<bytes>)

  datatype ApiError =
    | NoServersAvailable
    | NoUniqueId(handle: bytes)
    | ConnectionClosed
    | SendFailed
    | ServerError(code: bytes, text: bytes)

  /** The command of a request; the codec of every connection has the same cap. */
  function Ask(r: Request, id: ClientCore.Id): ClientCore.Command {
    ClientCore.Command(id, r.Kind(), Codec.Fits(Codec.DEFAULT_MAX_PAYLOAD_SIZE, r.Packet()))
  }

  function Posted(channel: seq<Sent>, r: Request, id: ClientCore.Id): seq<Sent> {
    channel + [Sent(r.Packet(), Ask(r, id))]
  }

  predicate IsOn(channel: seq<Sent>, id: ClientCore.Id) {
    exists m <- channel :: m.command.id == id && m.command.kind.Submit?
  }

  class Client {
    const pool: Pool
    /** Per server, the commands its actor has been given. */
    var channels: seq<seq<Sent>>
    var nextId: ClientCore.Id
    /** The handles given out, each with the submission it answers. */
    ghost var jobs: map<JobHandle, ClientCore.Id>

    /** A handle names the server whose channel its submission went on. */
    ghost predicate Valid()
      reads this, pool
    {
      && pool.Valid() && |channels| == |pool.connected|
      && (forall i, j :: 0 <= i < |channels| && 0 <= j < |channels[i]| ==> channels[i][j].command.id < nextId)
      && forall h <- jobs :: h.server < |channels| && IsOn(channels[h.server], jobs[h])
    }

    constructor (pool: Pool)
      requires pool.Valid()
      ensures Valid() && this.pool == pool && channels == seq(|pool.connected|, _ => []) && jobs == map[]
    {
      this.pool := pool;
      channels := seq(|pool.connected|, _ => []);
      nextId := 0;
      jobs := map[];
    }

    /** One command, under a new identity, at the end of one channel. */
    method Post(server: nat, r: Request) returns (id: ClientCore.Id)
      requires Valid() && server < |channels|
      modifies this`channels, this`nextId
      ensures Valid() && id == old(nextId)
      ensures channels == old(channels)[server := Posted(old(channels)[server], r, id)]
      ensures forall i, j ::
        0 <= i < |old(channels)| && 0 <= j < |old(channels)[i]| ==> old(channels)[i][j].command.id != id
    {
      id := nextId;
      ghost var before := channels;
      channels := channels[server := Posted(channels[server], r, id)];
      nextId := nextId + 1;
      forall h | h in jobs ensures IsOn(channels[h.server], jobs[h]) {
        var m: Sent :| m in before[h.server] && m.command.id == jobs[h] && m.command.kind.Submit?;
        assert m in channels[h.server];
      }
    }

    /**
     A submission goes to one server that is up, and is refused exactly when all are down; with a
     ring and a unique id that server is the one the ring chooses.
     */
    method SubmitPacket(r: Request) returns (sent: Result<Submission, ApiError>)
      requires Valid() && r.IsSubmit()
      modifies this`channels, this`nextId, pool`cursor
      ensures Valid()
      ensures sent.Err? <==> forall i :: 0 <= i < |pool.connected| ==> !pool.connected[i]
      ensures sent.Err? ==> sent.error == NoServersAvailable && channels == old(channels)
      ensures sent.Ok? ==>
        && var Submission(server, id, unique) := sent.value;
        && server < |channels| && pool.connected[server] && id == old(nextId) && unique == r.unique
        && channels == old(channels)[server := Posted(old(channels)[server], r, id)]
        && IsOn(channels[server], id)
      ensures sent.Ok? && pool.ring.Some? && OrEmpty(r.unique) != [] ==>
        var ring := pool.ring.value;
        var hash := Ketama.HashOf(ring.md5, r.unique.value);
        Some(sent.value.server) == Ketama.Chosen(ring.points, hash, IsUp(pool.connected))
    {
      var server := pool.SelectForSubmit(r.unique);
      if server.None? {
        return Err(NoServersAvailable);
      }
      var id := Post(server.value, r);
      assert Sent(r.Packet(), Ask(r, id)) in channels[server.value];
      return Ok(Submission(server.value, id, r.unique));
    }

    /** The second half of a submission: what its oneshot says, if it is not dropped, makes the handle. */
    method FinishSubmit(s: Submission, reply: Option<ClientCore.Reply>) returns (r: Result<JobHandle, ApiError>)
      requires Valid() && s.server < |channels| && IsOn(channels[s.server], s.id)
      modifies this`jobs
      ensures Valid()
      ensures r.Ok? <==> reply.Some? && reply.value.Created?
      ensures r.Ok? ==>
        r.value == JobHandle(s.server, reply.value.handle, s.unique) && jobs == old(jobs)[r.value := s.id]
      ensures r.Err? ==> jobs == old(jobs)
      ensures r.Err? && reply.Some? && reply.value.ServerError? ==>
        r.error == ServerError(reply.value.code, reply.value.text)
      ensures reply.None? || reply.value.ConnectionClosed? ==> r == Err(ConnectionClosed)
      ensures reply.Some? && reply.value.SendFailed? ==> r == Err(SendFailed)
    {
      match reply {
        case Some(Created(handle)) =>
          var h := JobHandle(s.server, handle, s.unique);
          jobs := jobs[h := s.id];
          return Ok(h);
        case Some(ServerError(code, text)) => return Err(ServerError(code, text));
        case Some(SendFailed) => return Err(SendFailed);
        case _ => return Err(ConnectionClosed);
      }
    }

    /** A status query goes to the server that has the job, behind the job's own submission. */
    method GetStatus(handle: JobHandle) returns (id: ClientCore.Id)
      requires Valid() && handle.server < |channels|
      modifies this`channels, this`nextId
      ensures Valid()
      ensures channels == old(channels)[handle.server :=
                Posted(old(channels)[handle.server], Request.GetStatus(handle.handle), id)]
      ensures handle in jobs ==> IsOn(old(channels)[handle.server], jobs[handle])
    {
      id := Post(handle.server, Request.GetStatus(handle.handle));
    }

    method GetStatusUnique(handle: JobHandle) returns (r: Result<ClientCore.Id, ApiError>)
      requires Valid() && handle.server < |channels|
      modifies this`channels, this`nextId
      ensures Valid() && (r.Err? <==> handle.unique.None?)
      ensures r.Err? ==> r.error == NoUniqueId(handle.handle) && channels == old(channels)
      ensures r.Ok? ==>
        && channels == old(channels)[handle.server :=
                Posted(old(channels)[handle.server], Request.GetStatusUnique(handle.unique.value), r.value)]
        && (handle in jobs ==> IsOn(old(channels)[handle.server], jobs[handle]))
    {
      if handle.unique.None? {
        return Err(NoUniqueId(handle.handle));
      }
      var id := Post(handle.server, Request.GetStatusUnique(handle.unique.value));
      return Ok(id);
    }
  }
}
