/**
 From handler to subscriber: what a worker's handler reports and returns, forwarded by the server
 in RES packets, cut into arbitrary reads, decoded and dispatched, is what the submitter's stream
 yields.
 */
module JobStory {
  import opened Wrappers
  import opened Protocol
  import opened Decimal
  import opened Codec
  import opened ClientCore
  import opened ClientTheorems
  import opened WorkerCore
  import opened WorkerRuns

  function Forwarded(p: Packet): Packet {
    p.(magic := Res)
  }

  /** What the event stream shows of a report. */
  function SeenReport(r: Report): JobEvent {
    match r
    case Progress(n, d) => JobEvent.Status(n, d)
    case Chunk(data) => JobEvent.Data(data)
    case Warned(data) => JobEvent.Warning(data)
  }

  function SeenResult(r: JobResult): JobEvent {
    match r
    case Done(payload) => JobEvent.Complete(payload)
    case Failed => JobEvent.Fail
    case Excepted(payload) => JobEvent.Exception(payload)
  }

  /** Progress counts are unsigned 64-bit numbers. */
  predicate InRange(r: Report) {
    r.Progress? ==> r.numerator <= U64_MAX && r.denominator <= U64_MAX
  }

  function Seen(rs: seq<Report>, end: JobResult): seq<JobEvent> {
    if rs == [] then [SeenResult(end)] else [SeenReport(rs[0])] + Seen(rs[1..], end)
  }

  /** The packets of one job, as the submitter's connection carries them. */
  function Story(handle: bytes, rs: seq<Report>, end: JobResult): seq<Packet> {
    if rs == [] then [Forwarded(ResultPacket(handle, end))]
    else [Forwarded(ReportPacket(handle, rs[0]))] + Story(handle, rs[1..], end)
  }

  lemma ReportIsSeen(handle: bytes, r: Report)
    requires InRange(r)
    ensures var p := Forwarded(ReportPacket(handle, r));
      && IsWork(p.ptype) && EventOf(p) == SeenReport(r) && p.args[0] == handle
      && |p.args| == p.ptype.ArgCount() && (0 !in handle ==> Separable(p.args))
  {
    hide Value;
    if r.Progress? {
      ParseFormat(U64_MAX, r.numerator);
      ParseFormat(U64_MAX, r.denominator);
      assert forall b <- Format(r.numerator) :: IsDigit(b);
    }
  }

  lemma ResultIsSeen(handle: bytes, r: JobResult)
    ensures var p := Forwarded(ResultPacket(handle, r));
      && IsWork(p.ptype) && EventOf(p) == SeenResult(r) && p.args[0] == handle
      && |p.args| == p.ptype.ArgCount() && (0 !in handle ==> Separable(p.args))
  {
  }

  lemma {:induction false} StoryIsWellFormed(max: u32, handle: bytes, rs: seq<Report>, end: JobResult)
    requires 0 !in handle && (forall r <- rs :: InRange(r))
    requires forall p <- Story(handle, rs, end) :: |Join(p.args)| <= max
    ensures forall p <- Story(handle, rs, end) :: WellFormed(max, p)
  {
    hide ReportPacket, ResultPacket, Join, Separable;
    ResultIsSeen(handle, end);
    if rs != [] {
      var rest := Story(handle, rs[1..], end);
      assert Story(handle, rs, end)[1..] == rest;
      ReportIsSeen(handle, rs[0]);
      StoryIsWellFormed(max, handle, rs[1..], end);
    }
  }

  /** Every packet n times over, the copies back to back: one for each registration of the job. */
  function Fanned(ps: seq<Packet>, n: nat): seq<Packet> {
    if ps == [] then [] else Copies(ps[0], n) + Fanned(ps[1..], n)
  }

  lemma {:induction false} FannedHas(ps: seq<Packet>, n: nat)
    ensures forall p <- Fanned(ps, n) :: p in ps
    ensures ps != [] && n > 0 ==> Fanned(ps, n) != []
  {
    if ps != [] {
      FannedHas(ps[1..], n);
    }
  }

  /** One event's copies go once round the subscribers of the job. */
  lemma EventGoesRound(c: Client, p: Packet, id: Id)
    requires IsWork(p.ptype) && p.args != [] && p.args[0] in c.jobs
    requires var s := c.jobs[p.args[0]]; s.cursor < |s.slots| && multiset(s.slots)[Some(id)] == 1
    ensures var s, o := c.jobs[p.args[0]], Run(c, Copies(p, |c.jobs[p.args[0]].slots|));
      && EventsFor(o.effects, id) == [EventOf(p)]
      && o.client == if EventOf(p).Terminal() then c.(jobs := c.jobs - {p.args[0]}) else c
  {
    hide Run, DeliverN, Targets, EventOf, Keeping;
    var h, e := p.args[0], EventOf(p);
    var s := c.jobs[h];
    RunCopies(c, p, |s.slots|);
    RoundVisitsAll(s, e.Terminal());
    SendsPerId(Targets(s, e.Terminal(), |s.slots|), e, id);
    KeepingTwice(c, h, s, s);
    assert Copies(e, 1) == [e] + Copies(e, 0);
    Forgotten(c, h);
  }

  lemma Forgotten(c: Client, h: Handle)
    ensures Keeping(c, h, NoSubs) == c.(jobs := c.jobs - {h})
  {
  }

  /** Every open subscriber of a job, coalesced or not, sees its whole story, and then it is forgotten. */
  lemma {:induction false} StoryIsDispatched(c: Client, handle: bytes, id: Id, rs: seq<Report>, end: JobResult)
    requires handle in c.jobs && forall r <- rs :: InRange(r)
    requires var s := c.jobs[handle]; s.cursor < |s.slots| && multiset(s.slots)[Some(id)] == 1
    ensures var o := Run(c, Fanned(Story(handle, rs, end), |c.jobs[handle].slots|));
      && EventsFor(o.effects, id) == Seen(rs, end)
      && o.client == c.(jobs := c.jobs - {handle})
    decreases |rs|
  {
    hide ReportPacket, ResultPacket, EventOf, Handle1, Run, Copies;
    var story, n := Story(handle, rs, end), |c.jobs[handle].slots|;
    ReportOrResult(handle, rs, end);
    EventGoesRound(c, story[0], id);
    RunConcat(c, Copies(story[0], n), Fanned(story[1..], n));
    var u := Run(c, Copies(story[0], n));
    EventsConcat(u.effects, Run(u.client, Fanned(story[1..], n)).effects, id);
    if rs == [] {
      LastCopy(u.client);
    } else {
      StoryIsDispatched(c, handle, id, rs[1..], end);
    }
  }

  lemma ReportOrResult(handle: bytes, rs: seq<Report>, end: JobResult)
    requires forall r <- rs :: InRange(r)
    ensures var p := Story(handle, rs, end)[0];
      && IsWork(p.ptype) && p.args != [] && p.args[0] == handle
      && EventOf(p) == Seen(rs, end)[0] && (EventOf(p).Terminal() <==> rs == [])
    ensures Story(handle, rs, end)[1..] == if rs == [] then [] else Story(handle, rs[1..], end)
    ensures Seen(rs, end)[1..] == if rs == [] then [] else Seen(rs[1..], end)
  {
    hide ReportPacket, ResultPacket;
    if rs == [] {
      ResultIsSeen(handle, end);
    } else {
      ReportIsSeen(handle, rs[0]);
    }
  }

  /** However its bytes are read, a list of well-formed packets arrives whole. */
  lemma ArrivesWhole(max: u32, ps: seq<Packet>, chunks: seq<bytes>)
    requires chunks != [] && Flatten(chunks) == WireAll(ps) && forall p <- ps :: WellFormed(max, p)
    ensures FeedAll(max, Reader([], None, []), chunks) == Reader(ps, None, [])
  {
    hide Drain, WellFormed;
    ChunkingIndependence(max, Reader([], None, []), chunks);
    StreamRoundTrip(max, ps, []);
    NothingToDrain(max);
    assert [] + WireAll(ps) == WireAll(ps) + [];
    assert ps + [] == ps && [] + ps == ps;
  }

  /**
   Whatever reads the connection's bytes arrive in, and however many submissions share the job, the
   stream of each that is open yields the handler's reports in order, then its result; the job is
   forgotten and nothing is left buffered.
   */
  lemma StoryIsTold(max: u32, c: Client, handle: bytes, id: Id, rs: seq<Report>, end: JobResult, chunks: seq<bytes>)
    requires 0 !in handle && handle in c.jobs && forall r <- rs :: InRange(r)
    requires var s := c.jobs[handle]; s.cursor < |s.slots| && multiset(s.slots)[Some(id)] == 1
    requires forall p <- Story(handle, rs, end) :: |Join(p.args)| <= max
    requires Flatten(chunks) == WireAll(Fanned(Story(handle, rs, end), |c.jobs[handle].slots|))
    ensures var r := FeedAll(max, Reader([], None, []), chunks);
      && r.error == None && r.buffer == []
      && EventsFor(Run(c, r.packets).effects, id) == Seen(rs, end)
      && Run(c, r.packets).client == c.(jobs := c.jobs - {handle})
  {
    hide FeedAll, Story, Run, Join, Seen, Fanned;
    var story, n := Story(handle, rs, end), |c.jobs[handle].slots|;
    StoryIsWellFormed(max, handle, rs, end);
    StoryIsDispatched(c, handle, id, rs, end);
    FannedHas(story, n);
    StoryIsNotEmpty(handle, rs, end, n);
    ArrivesWhole(max, Fanned(story, n), chunks);
  }

  lemma StoryIsNotEmpty(handle: bytes, rs: seq<Report>, end: JobResult, n: nat)
    requires n > 0
    ensures WireAll(Fanned(Story(handle, rs, end), n)) != []
  {
    var all := Fanned(Story(handle, rs, end), n);
    assert Story(handle, rs, end) != [];
    FannedHas(Story(handle, rs, end), n);
    assert |Wire(all[0])| >= HEADER_LEN;
  }

  lemma NothingToDrain(max: u32)
    ensures Drain(max, []) == Reader([], None, [])
  {
  }

  // ---------- Other packets read back ----------

  function Flag(b: bool): bytes {
    if b then [49] else [48]
  }

  /** How a server reports a status: STATUS_RES by handle, STATUS_RES_UNIQUE with a client count. */
  function StatusPacket(name: bytes, s: JobStatus): Packet {
    var args := [name, Flag(s.known), Flag(s.running), Format(s.numerator), Format(s.denominator)];
    match s.clientCount
    case None => Packet(Res, StatusRes, args)
    case Some(n) => Packet(Res, StatusResUnique, args + [Format(n)])
  }

  lemma StatusReadsBack(name: bytes, s: JobStatus)
    requires s.numerator <= U64_MAX && s.denominator <= U64_MAX
    requires s.clientCount.Some? ==> s.clientCount.value <= U32_MAX
    ensures var p := StatusPacket(name, s);
      && |p.args| == p.ptype.ArgCount()
      && var kind := if s.clientCount.None? then CommandKind.GetStatus else CommandKind.GetStatusUnique;
        ReplyOf(kind, p) == Some(StatusIs(s))
  {
    hide Format, Parse, Value;
    ParseFormat(U64_MAX, s.numerator);
    ParseFormat(U64_MAX, s.denominator);
    if s.clientCount.Some? {
      ParseFormat(U32_MAX, s.clientCount.value);
    }
  }

  /** A registration tells the server the function and its timeout, if it has one. */
  lemma RegistrationReadsBack(max: u32, name: Name, timeout: Option<nat>, rest: bytes)
    requires 0 !in name && (timeout.Some? ==> timeout.value <= U64_MAX)
    requires |Join(CanDoPacket(name, timeout).args)| <= max
    ensures var p := CanDoPacket(name, timeout);
      && Decode1(max, Wire(p) + rest) == Decoded.Got(p, rest)
      && p.args[0] == name
      && (if p.ptype.CanDoTimeout? then Parse(U64_MAX, p.args[1]) else None) == timeout
  {
    hide Join, Wire, Decode1, Value;
    DecodeIff(max, Wire(CanDoPacket(name, timeout)) + rest, CanDoPacket(name, timeout), rest);
    if timeout.Some? {
      ParseFormat(U64_MAX, timeout.value);
    }
  }

  /** How a server assigns a job to a worker that grabs in this mode. */
  function AssignPacket(mode: GrabMode, j: Job): Packet {
    match mode
    case Plain => Packet(Res, JobAssign, [j.handle, j.func, j.payload])
    case Uniq => Packet(Res, JobAssignUniq, [j.handle, j.func, OrEmpty(j.unique), j.payload])
    case All =>
      if j.reducer.None? then Packet(Res, JobAssignUniq, [j.handle, j.func, OrEmpty(j.unique), j.payload])
      else Packet(Res, JobAssignAll, [j.handle, j.func, OrEmpty(j.unique), OrEmpty(j.reducer), j.payload])
  }

  /** An assignment reaches the handler with every field its mode carries, binary payload included. */
  lemma AssignmentReadsBack(max: u32, mode: GrabMode, j: Job, rest: bytes)
    requires 0 !in j.handle && 0 !in j.func && 0 !in OrEmpty(j.unique) && 0 !in OrEmpty(j.reducer)
    requires (j.unique.Some? <==> !mode.Plain?) && (j.reducer.Some? ==> mode.All?)
    requires |Join(AssignPacket(mode, j).args)| <= max
    ensures var d := Decode1(max, Wire(AssignPacket(mode, j)) + rest);
      && d == Decoded.Got(AssignPacket(mode, j), rest)
      && IsAssign(d.packet.ptype) && |d.packet.args| == d.packet.ptype.ArgCount() && JobOf(d.packet) == j
  {
    hide Join, Wire, Decode1;
    DecodeIff(max, Wire(AssignPacket(mode, j)) + rest, AssignPacket(mode, j), rest);
  }

  // ---------- Replies read back ----------

  /** An ERROR tells whoever waits its code and its text. */
  lemma ErrorReadsBack(max: u32, kind: CommandKind, code: bytes, text: bytes, rest: bytes)
    requires 0 !in code && |Join([code, text])| <= max
    ensures var p := Packet(Res, Error, [code, text]);
      && Decode1(max, Wire(p) + rest) == Decoded.Got(p, rest)
      && ReplyOf(kind, p) == Some(ServerError(code, text))
  {
    hide Join, Wire, Decode1;
    var p := Packet(Res, Error, [code, text]);
    DecodeIff(max, Wire(p) + rest, p, rest);
  }

  /** A JOB_CREATED tells the submitter the handle. */
  lemma CreatedReadsBack(max: u32, foreground: bool, handle: bytes, rest: bytes)
    requires |handle| <= max
    ensures var p := Packet(Res, JobCreated, [handle]);
      && Decode1(max, Wire(p) + rest) == Decoded.Got(p, rest)
      && ReplyOf(CommandKind.Submit(foreground), p) == Some(Created(handle))
  {
    hide Wire, Decode1;
    var p := Packet(Res, JobCreated, [handle]);
    DecodeIff(max, Wire(p) + rest, p, rest);
  }

  /** `r` is the number that `s` spells, when there is one of that width. */
  ghost predicate ReadAs(max: nat, s: bytes, r: Option<nat>) {
    match r
    case Some(n) => n <= max && Spells(s, n)
    case None => forall n: nat :: n <= max ==> !Spells(s, n)
  }

  lemma ParseReads(max: nat, s: bytes)
    ensures ReadAs(max, s, Parse(max, s))
  {
    hide Parse, Spells;
    forall n: nat ensures Parse(max, s) == Some(n) <==> n <= max && Spells(s, n) {
      ParsesIff(max, s, n);
    }
  }

  /** What spells no 64-bit number counts as 0. */
  ghost predicate CountedAs(s: bytes, n: nat) {
    ReadAs(0xFFFF_FFFF_FFFF_FFFF, s, Some(n)) || (n == 0 && ReadAs(0xFFFF_FFFF_FFFF_FFFF, s, None))
  }

  lemma CountRead(s: bytes)
    ensures CountedAs(s, ParseOr0(s))
  {
    ParseReads(U64_MAX, s);
    hide Parse, ReadAs;
  }

  /** Any status packet: only "1" is true, counts by their spelling, and the number of clients if it is one. */
  lemma StatusIsRead(p: Packet, kind: CommandKind, s: JobStatus)
    requires |p.args| == p.ptype.ArgCount() && (p.ptype.StatusRes? || p.ptype.StatusResUnique?)
    requires ReplyOf(kind, p) == Some(StatusIs(s))
    ensures (s.known <==> p.args[1] == [49]) && (s.running <==> p.args[2] == [49])
    ensures CountedAs(p.args[3], s.numerator) && CountedAs(p.args[4], s.denominator)
    ensures p.ptype.StatusRes? ==> s.clientCount == None
    ensures p.ptype.StatusResUnique? ==> ReadAs(0xFFFF_FFFF, p.args[5], s.clientCount)
  {
    CountRead(p.args[3]);
    CountRead(p.args[4]);
    if p.ptype.StatusResUnique? {
      ParseReads(U32_MAX, p.args[5]);
    }
    hide Parse, ParseOr0, ReadAs, CountedAs;
  }

  /** The counts of a WORK_STATUS, spelled in any way. */
  lemma ProgressIsRead(p: Packet)
    requires p.ptype.WorkStatus? && |p.args| == p.ptype.ArgCount()
    ensures EventOf(p).Status?
    ensures CountedAs(p.args[1], EventOf(p).numerator) && CountedAs(p.args[2], EventOf(p).denominator)
  {
    CountRead(p.args[1]);
    CountRead(p.args[2]);
    hide Parse, ParseOr0, ReadAs, CountedAs;
  }

  // ---------- What a worker is given ----------

  /** What a mode grabs is answered by the assignment that shows the job as that mode shows it. */
  lemma GrabsSuit(mode: GrabMode, j: Job)
    ensures Suits(mode.GrabType(), AssignPacket(mode, j).ptype)
  {
  }

  /**
   A worker that waits, with its request at the front of the wire, is given the job that the server
   chooses, with the reducer and unique id that go with its mode, and runs it if it has its function.
   */
  lemma JobIsGiven(mode: GrabMode, w: World, j: Job)
    requires w.worker.phase.AwaitReply? && w.toWorker == [] && w.toServer != []
    requires OfMode(mode, w.toServer[0]) && IsGrab(w.toServer[0].ptype)
    requires (j.unique.Some? <==> !mode.Plain?) && (j.reducer.Some? ==> mode.All?)
    requires Encodable(AssignPacket(mode, j)) && j.func in w.worker.registry
    ensures var s := Serves(AssignPacket(mode, j), false);
      && Enabled(w, s)
      && var w' := WorkerRuns.Apply(mode, w, s);
        && Enabled(w', Receives(true))
        && var v := WorkerRuns.Apply(mode, w', Receives(true)).worker;
          && v.phase == Running(j.handle, j.func) && JobOf(w'.toWorker[0]) == j
          && v.log == w.worker.log + [Obs.Got(AssignPacket(mode, j))]
  {
    GrabsSuit(mode, j);
    AssignmentIs(mode, j);
    hide Encodable, Wired;
    var w' := WorkerRuns.Apply(mode, w, Serves(AssignPacket(mode, j), false));
    assert w'.toWorker[0] == AssignPacket(mode, j);
  }

  lemma AssignmentIs(mode: GrabMode, j: Job)
    requires (j.unique.Some? <==> !mode.Plain?) && (j.reducer.Some? ==> mode.All?)
    ensures var p := AssignPacket(mode, j);
      && IsAssign(p.ptype) && |p.args| >= 2 && p.args[0] == j.handle && p.args[1] == j.func && JobOf(p) == j
  {
  }

  /**
   From every state of a run in which a worker waits and is not yet answered, the server can give
   it any job of a function it has, whole; a worker of mode All is shown the job's reducer.
   */
  lemma {:induction false} AnyJobCanBeGiven(mode: GrabMode, w: World, j: Job) returns (ss: seq<WorkerRuns.Step>)
    requires InStep(w) && AllOfMode(mode, w.toServer) && w.worker.phase.AwaitReply? && w.toWorker == []
    requires (j.unique.Some? <==> !mode.Plain?) && (j.reducer.Some? ==> mode.All?)
    requires Encodable(AssignPacket(mode, j)) && j.func in w.worker.registry
    ensures Legal(mode, w, ss) && forall s <- ss :: s.Serves? || s.Receives?
    ensures WorkerRuns.After(mode, w, ss).worker.phase == Running(j.handle, j.func)
    ensures ss != [] && exists t :: WorkerRuns.After(mode, w, ss).worker.log == t + [Obs.Got(AssignPacket(mode, j))]
    decreases |w.toServer|
  {
    assert w.toServer != [] && OfMode(mode, w.toServer[0]);
    if IsGrab(w.toServer[0].ptype) {
      var s := Serves(AssignPacket(mode, j), false);
      JobIsGiven(mode, w, j);
      var w' := WorkerRuns.Apply(mode, w, s);
      RunsOne(mode, w, s);
      RunsOne(mode, w', Receives(true));
      RunsConcat(mode, w, [s], [Receives(true)]);
      ss := [s] + [Receives(true)];
    } else {
      var s := Serves(NoopPacket, false);
      StaysInStep(mode, w, s);
      StaysOfMode(mode, w, s);
      OtherLeavesWaiting(mode, w, s);
      var w' := WorkerRuns.Apply(mode, w, s);
      var rest := AnyJobCanBeGiven(mode, w', j);
      RunsOne(mode, w, s);
      RunsConcat(mode, w, [s], rest);
      ss := [s] + rest;
    }
  }

  lemma OtherLeavesWaiting(mode: GrabMode, w: World, s: WorkerRuns.Step)
    requires InStep(w) && w.worker.phase.AwaitReply? && w.toWorker == []
    requires w.toServer != [] && !IsGrab(w.toServer[0].ptype) && s == Serves(NoopPacket, false)
    ensures Enabled(w, s)
    ensures var w' := WorkerRuns.Apply(mode, w, s);
      w'.worker == w.worker && w'.toWorker == [] && w'.toServer == w.toServer[1..]
  {
  }

  /** The submitter of a job whose function the worker does not have is told that it failed. */
  lemma UnregisteredJobFails(mode: GrabMode, w: State, j: Job)
    requires w.phase.AwaitReply? && w.alive && j.func !in w.registry && Encodable(AssignPacket(mode, j))
    requires (j.unique.Some? <==> !mode.Plain?) && (j.reducer.Some? ==> mode.All?)
    ensures var v, n := WorkerCore.Step(mode, w, Input.Arrives(AssignPacket(mode, j), true)), |w.log|;
      && v.phase.Top? && |v.log| == n + 2 && v.log[n + 1].Put?
      && var p := v.log[n + 1].packet;
        p.ptype == WorkFail && p.args == [j.handle] && IsWork(p.ptype) && EventOf(Forwarded(p)) == JobEvent.Fail
  {
    AssignmentIs(mode, j);
    AlwaysEncodable(mode, AssignPacket(mode, j));
    hide Encodable;
  }
}
