/**
 One grab-loop connection of a worker on values (src/worker/mod.rs, src/worker/job.rs): the
 asynchronous functions as the machine of their suspension points, with what the worker's handle,
 the network and the job handlers do as inputs.
 */
module WorkerCore {
  import opened Wrappers
  import opened Protocol
  import opened Decimal
  import Codec

  type Name = bytes

  datatype GrabMode = Uniq | Plain | All {
    function GrabType(): PacketType {
      match this case Uniq => GrabJobUniq case Plain => GrabJob case All => GrabJobAll
    }
  }

  /** What connections have carried, in order. Opened starts a new one; `live` if no write had failed on the last. */
  datatype Obs = Opened(live: bool) | Put(packet: Packet) | Got(packet: Packet)

  datatype Phase =
    | Offline                                    // not connected, or backing off
    | Draining                                   // functions registered, old notifications not yet discarded
    | Top                                        // at the top of the grab loop
    | Grabbing                                   // shutdown checked, unregistrations flushed
    | AwaitReply                                 // GRAB_JOB sent
    | Running(handle: bytes, func: Name)         // inside the handler
    | Asleep                                     // PRE_SLEEP sent
    | Finished

  /** Notifications a subscriber of the unregister channel can hold before it lags. */
  const CHANNEL_CAPACITY: nat := 16

  datatype State = State(
    registry: map<Name, Option<nat>>,            // functions, with a timeout in seconds
    shutdown: bool,
    queue: seq<Name>,                            // unregister notifications not yet received
    lagged: bool,                                // some were overwritten since the last receive
    phase: Phase,
    alive: bool,                                 // no write to this connection has failed
    reporters: set<bytes>,                       // handles whose reporter may be in use on it
    log: seq<Obs>)

  datatype JobResult = Done(payload: bytes) | Failed | Excepted(payload: bytes)

  datatype Report = Progress(numerator: nat, denominator: nat) | Chunk(data: bytes) | Warned(data: bytes)

  /** A connection attempt; functions are registered in some order, and `sends` writes get through. */
  datatype Attempt = Refused | Registers(order: seq<Name>, sends: nat)

  datatype Input =
    | Unregisters(func: Name)                    // Worker::unregister
    | ShutsDown                                  // Worker::shutdown
    | Attempts(attempt: Attempt)                 // connect and register_functions
    | Drains                                     // the discard of older notifications
    | Begins(sends: nat)                         // shutdown check and flush; how many CANT_DO get through
    | Grabs(ok: bool)
    | Arrives(packet: Packet, ok: bool)          // recv yields a packet; ok says whether the answer gets through
    | Gone                                       // recv yields the end of the connection
    | Reports(handle: bytes, report: Report, ok: bool)  // someone uses a Reporter, or a clone of one
    | Ends(result: JobResult, ok: bool)          // the handler returns
    | Panics                                     // the handler panics
    | Interrupted                                // a wait is cut short by the shutdown flag

  function Request(t: PacketType, args: seq<bytes>): Packet {
    Packet(Req, t, args)
  }

  function CanDoPacket(name: Name, timeout: Option<nat>): Packet {
    match timeout
    case Some(secs) => Request(CanDoTimeout, [name, Format(secs)])
    case None => Request(CanDo, [name])
  }

  function ReportPacket(handle: bytes, r: Report): Packet {
    match r
    case Progress(n, d) => Request(WorkStatus, [handle, Format(n), Format(d)])
    case Chunk(data) => Request(WorkData, [handle, data])
    case Warned(data) => Request(WorkWarning, [handle, data])
  }

  function ResultPacket(handle: bytes, r: JobResult): Packet {
    match r
    case Done(payload) => Request(WorkComplete, [handle, payload])
    case Failed => Request(WorkFail, [handle])
    case Excepted(payload) => Request(WorkException, [handle, payload])
  }

  predicate IsAssign(t: PacketType) {
    t.JobAssign? || t.JobAssignUniq? || t.JobAssignAll?
  }

  /** What a handler is given, but for its reporter. */
  datatype Job = Job(handle: bytes, func: Name, unique: Option<bytes>, reducer: Option<bytes>, payload: bytes)

  function ArgAt(p: Packet, i: nat): Option<bytes> {
    if i < |p.args| then Some(p.args[i]) else None
  }

  function JobOf(p: Packet): Job {
    if p.ptype.JobAssignAll? then Job(p.ArgOrEmpty(0), p.ArgOrEmpty(1), ArgAt(p, 2), ArgAt(p, 3), p.ArgOrEmpty(4))
    else if p.ptype.JobAssignUniq? then Job(p.ArgOrEmpty(0), p.ArgOrEmpty(1), ArgAt(p, 2), None, p.ArgOrEmpty(3))
    else Job(p.ArgOrEmpty(0), p.ArgOrEmpty(1), None, None, p.ArgOrEmpty(2))
  }

  /** What the codec writes and reads: a packet of the right arity, within its cap. */
  predicate Encodable(p: Packet) {
    Codec.Fits(Codec.DEFAULT_MAX_PAYLOAD_SIZE, p)
  }

  /**
   A send. The codec refuses a packet before anything is written, and the connection stays as it
   is; nothing leaves a connection on which a write has failed.
   */
  function Sent(w: State, p: Packet, ok: bool): State {
    if !Encodable(p) then w
    else if ok && w.alive then w.(log := w.log + [Put(p)])
    else w.(alive := false)
  }

  /** Sending touches nothing but the wire. */
  lemma SentIs(w: State, p: Packet, ok: bool)
    ensures var v := Sent(w, p, ok);
      && v == w.(log := v.log, alive := v.alive)
      && (v.log == w.log || v.log == w.log + [Put(p)])
  {
  }

  function Puts(ps: seq<Packet>): (r: seq<Obs>)
    ensures |r| == |ps| && forall i :: 0 <= i < |ps| ==> r[i] == Put(ps[i])
  {
    seq(|ps|, i requires 0 <= i < |ps| => Put(ps[i]))
  }

  function CanDos(registry: map<Name, Option<nat>>, order: seq<Name>): (r: seq<Packet>)
    requires forall f <- order :: f in registry
    ensures |r| == |order|
    ensures forall i :: 0 <= i < |order| ==> r[i] == CanDoPacket(order[i], registry[order[i]])
  {
    seq(|order|, i requires 0 <= i < |order| => CanDoPacket(order[i], registry[order[i]]))
  }

  function CantDos(names: seq<Name>): (r: seq<Packet>)
    ensures |r| == |names| && forall i :: 0 <= i < |names| ==> r[i] == Request(CantDo, [names[i]])
  {
    seq(|names|, i requires 0 <= i < |names| => Request(CantDo, [names[i]]))
  }

  function NamesIn(names: seq<Name>): set<Name> {
    set f <- names
  }

  /** A broadcast to a full channel overwrites the oldest notification. */
  function Notified(w: State, f: Name): State {
    if |w.queue| < CHANNEL_CAPACITY then w.(queue := w.queue + [f])
    else w.(queue := w.queue[1..] + [f], lagged := true)
  }

  /** Discarding what is queued stops early at a report of lost notifications. */
  function Drained(w: State): State {
    if w.lagged then w.(lagged := false) else w.(queue := [])
  }

  /** How many packets from the front the codec takes. */
  function Clear(ps: seq<Packet>): (n: nat)
    ensures n <= |ps|
  {
    if ps == [] || !Encodable(ps[0]) then 0 else 1 + Clear(ps[1..])
  }

  lemma {:induction false} ClearIs(ps: seq<Packet>, i: nat)
    requires i < |ps| && i <= Clear(ps)
    ensures i < Clear(ps) <==> Encodable(ps[i])
  {
    if i > 0 {
      ClearIs(ps[1..], i - 1);
    }
  }

  /** How many of these packets are sent, when `sends` writes get through. */
  function Through(ps: seq<Packet>, alive: bool, sends: nat): (n: nat)
    ensures n <= |ps| && (!alive ==> n == 0)
  {
    if !alive then 0 else if sends < Clear(ps) then sends else Clear(ps)
  }

  /** CANT_DO for every queued notification, up to the first that is refused or fails. */
  function Flushed(w: State, sends: nat): State {
    var ps := CantDos(w.queue);
    var n := Through(ps, w.alive, sends);
    var w' := w.(log := w.log + Puts(ps[..n]), lagged := false);
    if n == |ps| then w'.(queue := [], phase := Grabbing)
    else w'.(queue := w.queue[n + 1..], alive := w.alive && n == Clear(ps), phase := Offline)
  }

  /** A reply to GRAB_JOB. */
  function Replied(w: State, p: Packet, ok: bool): State
    requires Encodable(p)
  {
    var w' := w.(log := w.log + [Got(p)], phase := Top);
    if IsAssign(p.ptype) then
      var handle, func := p.args[0], p.args[1];
      if func in w.registry then w'.(phase := Running(handle, func), reporters := w.reporters + {handle})
      else Sent(w', Request(WorkFail, [handle]), ok)
    else if p.ptype.NoJob? then
      var w'' := Sent(w', Request(PreSleep, []), ok);
      w''.(phase := if w''.alive then Asleep else Offline)
    else w'
  }

  /** A packet read while the worker waits; any packet wakes a sleeping worker. */
  function Arrived(w: State, p: Packet, ok: bool): State
    requires Encodable(p)
  {
    if w.phase.AwaitReply? then Replied(w, p, ok)
    else if w.phase.Asleep? then w.(log := w.log + [Got(p)], phase := Top)
    else w
  }

  /** An iteration over the registry. */
  predicate Lists(registry: map<Name, Option<nat>>, order: seq<Name>) {
    |order| == |registry| && (forall f <- order :: f in registry) && NamesIn(order) == registry.Keys
  }

  /** connect and register_functions: CAN_DO for every function, up to the first that is refused or fails. */
  function Attempted(w: State, a: Attempt): State {
    if w.shutdown then w.(phase := Finished)
    else if a.Refused? || !Lists(w.registry, a.order) then w
    else
      var ps := CanDos(w.registry, a.order);
      var n := Through(ps, true, a.sends);
      var w' := w.(log := w.log + [Opened(w.alive)] + Puts(ps[..n]), reporters := {});
      if n == |ps| then w'.(alive := true, phase := Draining) else w'.(alive := n == Clear(ps))
  }

  /** A reporter of this connection can be used while the loop is not waiting in a read. */
  predicate Speaks(w: State, handle: bytes) {
    handle in w.reporters && (w.phase.Running? || w.phase.Top? || w.phase.Grabbing?)
  }

  /** GRAB_JOB. */
  function Grabbed(mode: GrabMode, w: State, ok: bool): State {
    var w' := Sent(w, Request(mode.GrabType(), []), ok);
    w'.(phase := if w'.alive then AwaitReply else Offline)
  }

  /** One input; what the current phase does not wait for leaves no trace. */
  function Step(mode: GrabMode, w: State, x: Input): State {
    match x
    case Unregisters(f) => Notified(w.(registry := w.registry - {f}), f)
    case ShutsDown => w.(shutdown := true)
    case Attempts(a) => if w.phase.Offline? then Attempted(w, a) else w
    case Drains => if w.phase.Draining? then Drained(w).(phase := Top) else w
    case Begins(sends) =>
      if !w.phase.Top? then w else if w.shutdown then w.(phase := Finished) else Flushed(w, sends)
    case Grabs(ok) => if w.phase.Grabbing? then Grabbed(mode, w, ok) else w
    case Arrives(p, ok) => if Encodable(p) then Arrived(w, p, ok) else w
    case Gone => if w.phase.AwaitReply? || w.phase.Asleep? then w.(phase := Offline) else w
    case Reports(h, r, ok) => if Speaks(w, h) then Sent(w, ReportPacket(h, r), ok) else w
    case Ends(r, ok) =>
      if w.phase.Running? then Sent(w, ResultPacket(w.phase.handle, r), ok).(phase := Top) else w
    case Panics => if w.phase.Running? then w.(phase := Finished) else w
    case Interrupted =>
      if w.shutdown && (w.phase.Asleep? || w.phase.Offline?) then w.(phase := Finished) else w
  }

  function Steps(mode: GrabMode, w: State, xs: seq<Input>): State
    decreases |xs|
  {
    if xs == [] then w else Steps(mode, Step(mode, w, xs[0]), xs[1..])
  }

  function Begin(registry: map<Name, Option<nat>>): State {
    State(registry, false, [], false, Offline, true, {}, [])
  }

  // ---------- Every assignment is answered ----------

  /** Where a connection stands by what it has carried. */
  datatype Ledger =
    | Joining                // functions are being registered
    | Idle
    | Asked                  // GRAB_JOB is open
    | Owes(handle: bytes)    // a job is assigned and not answered
    | Dismissed              // NO_JOB has come
    | Sleeping               // and PRE_SLEEP has gone
    | Broken
  {
    predicate Free() {
      !Owes? && !Broken?
    }
  }

  predicate IsProgress(t: PacketType) {
    t.WorkStatus? || t.WorkData? || t.WorkWarning?
  }

  predicate IsTerminal(t: PacketType) {
    t.WorkComplete? || t.WorkFail? || t.WorkException?
  }

  /**
   The rules of the wire: registrations come first; then rounds of retractions, one GRAB_JOB and
   the packet that answers it. An assignment is owed an answer: reports and the one terminal packet
   carry its handle and nothing else goes either way before that. NO_JOB, and nothing else, is
   followed by PRE_SLEEP and the packet that wakes. Only a connection that a write has failed on may
   be left owing. A broken rule stays broken.
   */
  function Entry(l: Ledger, o: Obs): Ledger {
    match o
    case Opened(live) => if l.Broken? || (l.Owes? && live) then Broken else Joining
    case Got(p) =>
      if !l.Asked? && !l.Sleeping? then Broken
      else if IsAssign(p.ptype) then if p.args == [] then Broken else Owes(p.args[0])
      else if l.Asked? && p.ptype.NoJob? then Dismissed
      else Idle
    case Put(p) =>
      if IsProgress(p.ptype) then if p.args != [] && l == Owes(p.args[0]) then l else Broken
      else if IsTerminal(p.ptype) then if p.args != [] && l == Owes(p.args[0]) then Idle else Broken
      else if l.Joining? && (p.ptype.CanDo? || p.ptype.CanDoTimeout?) then Joining
      else if (l.Joining? || l.Idle?) && p.ptype.CantDo? then Idle
      else if (l.Joining? || l.Idle?) && IsGrab(p.ptype) then Asked
      else if l.Dismissed? && p.ptype.PreSleep? then Sleeping
      else Broken
  }

  function Audit(log: seq<Obs>): Ledger {
    if log == [] then Idle else Entry(Audit(log[..|log| - 1]), log[|log| - 1])
  }

  lemma AuditSnoc(log: seq<Obs>, o: Obs)
    ensures Audit(log + [o]) == Entry(Audit(log), o)
  {
    assert (log + [o])[..|log|] == log;
  }

  /** Packets that each leave the ledger in the set they found it in. */
  lemma {:induction false} AuditPuts(log: seq<Obs>, ps: seq<Packet>, inside: set<Ledger>)
    requires Audit(log) in inside
    requires forall l <- inside, p <- ps :: Entry(l, Put(p)) in inside
    ensures Audit(log + Puts(ps)) in inside
  {
    hide Entry;
    if ps == [] {
      assert log + Puts(ps) == log;
    } else {
      var init, last := ps[..|ps| - 1], ps[|ps| - 1];
      AuditPuts(log, init, inside);
      AuditSnoc(log + Puts(init), Put(last));
      assert log + Puts(ps) == (log + Puts(init)) + [Put(last)];
    }
  }

  /** The ledger that goes with each phase of the loop. */
  predicate AtPhase(l: Ledger, p: Phase) {
    match p
    case Offline => l.Free()
    case Draining => l.Joining?
    case Top => l.Joining? || l.Idle?
    case Grabbing => l.Joining? || l.Idle?
    case AwaitReply => l.Asked?
    case Running(handle, _) => l == Owes(handle)
    case Asleep => l.Sleeping?
    case Finished => !l.Broken?
  }

  /** The ledger agrees with the phase, as long as the connection works. */
  predicate Honest(w: State) {
    var l := Audit(w.log);
    && !l.Broken?
    && (w.alive ==> AtPhase(l, w.phase))
    && (!w.alive ==> !w.phase.Draining? && !w.phase.AwaitReply? && !w.phase.Asleep?)
  }

  predicate SwallowsNothing(w: State, x: Input) {
    x.Arrives? && w.phase.Asleep? && Encodable(x.packet) ==> !IsAssign(x.packet.ptype)
  }

  /** The handler's result has no room in a packet; the codec refuses it and the loop goes on. */
  predicate ResultRefused(w: State, x: Input) {
    w.alive && w.phase.Running? && x.Ends? && !Encodable(ResultPacket(w.phase.handle, x.result))
  }

  /** A reporter that has outlived its handler gets a report through. */
  predicate StrayReport(w: State, x: Input) {
    && x.Reports? && x.ok && w.alive && Speaks(w, x.handle) && Encodable(ReportPacket(x.handle, x.report))
    && !(w.phase.Running? && w.phase.handle == x.handle)
  }

  predicate KeepsLedger(w: State, x: Input) {
    SwallowsNothing(w, x) && !ResultRefused(w, x) && !StrayReport(w, x)
  }

  lemma SentHonest(w: State, w': State, p: Packet, ok: bool)
    requires w' == Sent(w, p, ok) && Encodable(p)
    requires !Audit(w.log).Broken? && (w.alive && ok ==> !Entry(Audit(w.log), Put(p)).Broken?)
    ensures !Audit(w'.log).Broken? && (w'.alive ==> Audit(w'.log) == Entry(Audit(w.log), Put(p)) && w.alive)
  {
    AuditSnoc(w.log, Put(p));
  }

  /** Requests without arguments, and the failing of a job just read, always fit. */
  lemma AlwaysEncodable(mode: GrabMode, p: Packet)
    ensures Encodable(Request(mode.GrabType(), [])) && Encodable(Request(PreSleep, []))
    ensures Encodable(p) && p.args != [] ==> Encodable(Request(WorkFail, [p.args[0]]))
  {
  }

  lemma AttemptIsHonest(w: State, a: Attempt)
    requires Honest(w) && w.phase.Offline?
    ensures Honest(Attempted(w, a))
  {
    hide Audit, CanDoPacket, Encodable;
    if !a.Refused? && Lists(w.registry, a.order) {
      var ps := CanDos(w.registry, a.order);
      CanDosAreQuiet(w.registry, a.order);
      hide CanDos, Lists;
      AuditSnoc(w.log, Opened(w.alive));
      AuditPuts(w.log + [Opened(w.alive)], ps[..Through(ps, true, a.sends)], {Joining});
    }
  }

  lemma CanDosAreQuiet(registry: map<Name, Option<nat>>, order: seq<Name>)
    requires forall f <- order :: f in registry
    ensures forall p <- CanDos(registry, order) :: p.ptype.CanDo? || p.ptype.CanDoTimeout?
  {
  }

  lemma FlushIsHonest(w: State, sends: nat)
    requires Honest(w) && w.phase.Top?
    ensures Honest(Flushed(w, sends))
  {
    hide Audit, Through;
    var ps := CantDos(w.queue);
    var n := Through(ps, w.alive, sends);
    if w.alive {
      AuditPuts(w.log, ps[..n], {Joining, Idle});
    } else {
      assert w.log + Puts(ps[..0]) == w.log;
    }
  }

  lemma AssignmentIsHonest(w: State, p: Packet, ok: bool)
    requires Honest(w) && w.phase.AwaitReply? && Encodable(p) && IsAssign(p.ptype)
    ensures Honest(Replied(w, p, ok))
  {
    hide Encodable, Audit;
    AssignmentsName(p);
    AlwaysEncodable(Plain, p);
    AuditSnoc(w.log, Got(p));
    var w' := w.(log := w.log + [Got(p)], phase := Top);
    var fail := Request(WorkFail, [p.args[0]]);
    SentHonest(w', Sent(w', fail, ok), fail, ok);
    hide Sent;
  }

  lemma NoJobIsHonest(w: State, p: Packet, ok: bool)
    requires Honest(w) && w.phase.AwaitReply? && Encodable(p) && p.ptype.NoJob?
    ensures Honest(Replied(w, p, ok))
  {
    hide Encodable, Audit;
    var sleep := Request(PreSleep, []);
    AlwaysEncodable(Plain, p);
    AuditSnoc(w.log, Got(p));
    var w' := w.(log := w.log + [Got(p)], phase := Top);
    SentHonest(w', Sent(w', sleep, ok), sleep, ok);
    hide Sent;
  }

  lemma ReplyIsHonest(w: State, p: Packet, ok: bool)
    requires Honest(w) && w.phase.AwaitReply? && Encodable(p)
    ensures Honest(Replied(w, p, ok))
  {
    hide Encodable, Audit, Replied, Entry;
    if IsAssign(p.ptype) {
      AssignmentIsHonest(w, p, ok);
    } else if p.ptype.NoJob? {
      NoJobIsHonest(w, p, ok);
    } else {
      OtherIsHonest(w, p, ok);
    }
  }

  lemma OtherIsHonest(w: State, p: Packet, ok: bool)
    requires Honest(w) && w.phase.AwaitReply? && Encodable(p) && !IsAssign(p.ptype) && !p.ptype.NoJob?
    ensures Honest(Replied(w, p, ok))
  {
    hide Encodable, Audit;
    AuditSnoc(w.log, Got(p));
  }

  lemma GrabIsHonest(mode: GrabMode, w: State, ok: bool)
    requires Honest(w) && w.phase.Grabbing?
    ensures Honest(Step(mode, w, Grabs(ok)))
  {
    var p := Request(mode.GrabType(), []);
    AlwaysEncodable(mode, p);
    hide Audit, Encodable;
    SentHonest(w, Sent(w, p, ok), p, ok);
  }

  lemma ReportIsHonestIff(mode: GrabMode, w: State, x: Input)
    requires Honest(w) && x.Reports?
    ensures Honest(Step(mode, w, x)) <==> !StrayReport(w, x)
  {
    hide Audit, Format, Encodable;
    var p := ReportPacket(x.handle, x.report);
    AuditSnoc(w.log, Put(p));
  }

  lemma ResultIsHonestIff(mode: GrabMode, w: State, x: Input)
    requires Honest(w) && x.Ends?
    ensures Honest(Step(mode, w, x)) <==> !ResultRefused(w, x)
  {
    hide Audit, Encodable;
    if w.phase.Running? {
      AuditSnoc(w.log, Put(ResultPacket(w.phase.handle, x.result)));
    }
  }

  lemma ArrivalIsHonestIff(mode: GrabMode, w: State, x: Input)
    requires Honest(w) && x.Arrives?
    ensures Honest(Step(mode, w, x)) <==> SwallowsNothing(w, x)
  {
    hide Audit, Encodable, Replied;
    if Encodable(x.packet) && w.phase.AwaitReply? {
      ReplyIsHonest(w, x.packet, x.ok);
    } else if Encodable(x.packet) && w.phase.Asleep? {
      AuditSnoc(w.log, Got(x.packet));
      if IsAssign(x.packet.ptype) {
        AssignmentsName(x.packet);
      }
    }
  }

  lemma AssignmentsName(p: Packet)
    requires Encodable(p) && IsAssign(p.ptype)
    ensures |p.args| >= 3
  {
  }

  /**
   The accounting breaks in exactly three ways: an assignment reaches a sleeping worker, the codec
   refuses a result that is too large, or a report comes from a reporter that outlived its handler.
   */
  lemma HonestIff(mode: GrabMode, w: State, x: Input)
    requires Honest(w)
    ensures Honest(Step(mode, w, x)) <==> KeepsLedger(w, x)
  {
    if x.Reports? {
      ReportIsHonestIff(mode, w, x);
    } else if x.Ends? {
      ResultIsHonestIff(mode, w, x);
    } else if x.Arrives? {
      ArrivalIsHonestIff(mode, w, x);
    } else {
      hide Audit, Attempted, Flushed, Replied, Encodable;
      if x.Attempts? && w.phase.Offline? {
        AttemptIsHonest(w, x.attempt);
      } else if x.Begins? && w.phase.Top? && !w.shutdown {
        FlushIsHonest(w, x.sends);
      } else if x.Grabs? && w.phase.Grabbing? {
        GrabIsHonest(mode, w, x.ok);
      }
    }
  }

  /** No input of the run is one of those three. */
  predicate LedgerKept(mode: GrabMode, w: State, xs: seq<Input>)
    decreases |xs|
  {
    xs == [] || (KeepsLedger(w, xs[0]) && LedgerKept(mode, Step(mode, w, xs[0]), xs[1..]))
  }

  lemma {:induction false} RunIsHonest(mode: GrabMode, w: State, xs: seq<Input>)
    requires Honest(w) && LedgerKept(mode, w, xs)
    ensures Honest(Steps(mode, w, xs))
    decreases |xs|
  {
    hide Step, Honest, KeepsLedger;
    if xs != [] {
      HonestIff(mode, w, xs[0]);
      RunIsHonest(mode, Step(mode, w, xs[0]), xs[1..]);
    }
  }

  /**
   Whatever the server sends, in a run without those three: every connection carries what the rules
   of the wire allow, and stands where the loop is. So each assignment is answered by exactly one
   terminal packet with its handle, reports fall in between and carry it too, and no GRAB_JOB or
   other packet is sent before the answer.
   */
  lemma AssignmentsAreAnswered(mode: GrabMode, registry: map<Name, Option<nat>>, xs: seq<Input>)
    requires LedgerKept(mode, Begin(registry), xs)
    ensures var w := Steps(mode, Begin(registry), xs);
      !Audit(w.log).Broken? && (w.alive ==> AtPhase(Audit(w.log), w.phase))
  {
    RunIsHonest(mode, Begin(registry), xs);
  }

  // ---------- Shutdown ----------

  function GrabsIn(log: seq<Obs>): nat {
    if log == [] then 0
    else
      var o := log[|log| - 1];
      GrabsIn(log[..|log| - 1]) + if o.Put? && IsGrab(o.packet.ptype) then 1 else 0
  }

  lemma GrabsSnoc(log: seq<Obs>, o: Obs)
    ensures GrabsIn(log + [o]) == GrabsIn(log) + if o.Put? && IsGrab(o.packet.ptype) then 1 else 0
  {
    assert (log + [o])[..|log|] == log;
  }

  /** Handlers started during a run. */
  function JobsStarted(mode: GrabMode, w: State, xs: seq<Input>): nat
    decreases |xs|
  {
    if xs == [] then 0
    else
      var w' := Step(mode, w, xs[0]);
      JobsStarted(mode, w', xs[1..]) + if w'.phase.Running? && !w.phase.Running? then 1 else 0
  }

  predicate IsGrab(t: PacketType) {
    t.GrabJob? || t.GrabJobUniq? || t.GrabJobAll?
  }

  lemma SentGrabs(w: State, p: Packet, ok: bool)
    ensures GrabsIn(Sent(w, p, ok).log) <= GrabsIn(w.log) + if IsGrab(p.ptype) then 1 else 0
    ensures Sent(w, p, ok).phase == w.phase
  {
    GrabsSnoc(w.log, Put(p));
  }

  lemma SendsWhileClosing(mode: GrabMode, w: State, x: Input)
    requires w.shutdown
    ensures var w' := Step(mode, w, x);
      GrabsIn(w'.log) <= GrabsIn(w.log) + if w.phase.Grabbing? && !w'.phase.Grabbing? then 1 else 0
  {
    hide GrabsIn, Format, Sent, Flushed, Encodable;
    match x {
      case Grabs(ok) => SentGrabs(w, Request(mode.GrabType(), []), ok);
      case Arrives(p, ok) =>
        GrabsSnoc(w.log, Got(p));
        var w' := w.(log := w.log + [Got(p)], phase := Top);
        SentGrabs(w', Request(PreSleep, []), ok);
        if Encodable(p) && IsAssign(p.ptype) {
          AssignmentsName(p);
          SentGrabs(w', Request(WorkFail, [p.args[0]]), ok);
        }
      case Reports(h, r, ok) => SentGrabs(w, ReportPacket(h, r), ok);
      case Ends(r, ok) => if w.phase.Running? { SentGrabs(w, ResultPacket(w.phase.handle, r), ok); }
      case _ =>
    }
  }

  lemma PhasesWhileClosing(mode: GrabMode, w: State, x: Input)
    requires w.shutdown
    ensures var v := Step(mode, w, x);
      && v.shutdown
      && (v.phase.Grabbing? ==> w.phase.Grabbing?)
      && (v.phase.AwaitReply? ==> w.phase.Grabbing? || w.phase.AwaitReply?)
      && (v.phase.Running? ==> w.phase.Running? || w.phase.AwaitReply?)
  {
    hide Sent, Encodable, Puts, CanDos, CantDos, Through, Lists, ReportPacket, ResultPacket;
    if x.Reports? {
      SentIs(w, ReportPacket(x.handle, x.report), x.ok);
    } else if x.Ends? && w.phase.Running? {
      SentIs(w, ResultPacket(w.phase.handle, x.result), x.ok);
    } else if x.Arrives? {
      ArrivesWhileClosing(w, x.packet, x.ok);
      hide Replied;
    } else if x.Grabs? {
      SentIs(w, Request(mode.GrabType(), []), x.ok);
    }
  }

  lemma ArrivesWhileClosing(w: State, p: Packet, ok: bool)
    requires w.shutdown
    ensures Encodable(p) ==> var v := Replied(w, p, ok);
      v.shutdown && !v.phase.Grabbing? && !v.phase.AwaitReply?
  {
    hide Encodable;
  }

  /**
   Once the shutdown flag is set a connection sends at most one more GRAB_JOB and starts at most
   one more job; neither, if the flag was set before it passed the check at the top of its loop.
   */
  lemma {:induction false} ShutdownIsPrompt(mode: GrabMode, w: State, xs: seq<Input>)
    requires w.shutdown
    ensures var w' := Steps(mode, w, xs);
      && GrabsIn(w'.log) <= GrabsIn(w.log) + (if w.phase.Grabbing? then 1 else 0)
      && JobsStarted(mode, w, xs) <= if w.phase.Grabbing? || w.phase.AwaitReply? then 1 else 0
    decreases |xs|
  {
    hide Step, GrabsIn;
    if xs != [] {
      SendsWhileClosing(mode, w, xs[0]);
      PhasesWhileClosing(mode, w, xs[0]);
      ShutdownIsPrompt(mode, Step(mode, w, xs[0]), xs[1..]);
    }
  }

  // ---------- Unregistering ----------

  /** A handler starts only for a function registered at that moment. */
  lemma OnlyRegisteredRun(mode: GrabMode, w: State, x: Input)
    ensures var w' := Step(mode, w, x);
      && w'.registry.Keys <= w.registry.Keys
      && (w'.phase.Running? && !w.phase.Running? ==> w'.phase.func in w.registry)
  {
    hide Encodable, Replied, Attempted, Flushed;
    if x.Arrives? {
      if Encodable(x.packet) {
        StartsRegistered(w, x.packet, x.ok);
      }
    } else if x.Attempts? || x.Begins? {
      BulkStartsNothing(mode, w, x);
      hide Step;
    } else if x.Reports? || x.Ends? || x.Grabs? {
      NoStart(mode, w, x);
      hide Step;
    }
  }

  lemma BulkStartsNothing(mode: GrabMode, w: State, x: Input)
    requires x.Attempts? || x.Begins?
    ensures var w' := Step(mode, w, x);
      w'.registry == w.registry && (w'.phase.Running? ==> w.phase.Running?)
  {
    hide Through, Clear, Puts, CanDos, CantDos, Lists;
  }

  lemma NoStart(mode: GrabMode, w: State, x: Input)
    requires x.Reports? || x.Ends? || x.Grabs?
    ensures var w' := Step(mode, w, x);
      && w'.registry == w.registry && w'.queue == w.queue
      && (w'.phase.Running? ==> w.phase.Running?)
  {
    hide Encodable, ReportPacket, ResultPacket, Attempted, Flushed, Arrived;
  }

  lemma StartsRegistered(w: State, p: Packet, ok: bool)
    requires Encodable(p)
    ensures var w' := Replied(w, p, ok);
      w'.registry == w.registry && (w'.phase.Running? ==> w'.phase.func in w.registry)
  {
    hide PacketType.ArgCount, Audit;
  }

  /** Jobs of one function started during a run. */
  function StartedOf(mode: GrabMode, w: State, xs: seq<Input>, f: Name): nat
    decreases |xs|
  {
    if xs == [] then 0
    else
      var w' := Step(mode, w, xs[0]);
      StartedOf(mode, w', xs[1..], f) + if w'.phase.Running? && !w.phase.Running? && w'.phase.func == f then 1 else 0
  }

  /** After Worker::unregister no handler of the function ever starts again. */
  lemma {:induction false} UnregisteredNeverStarts(mode: GrabMode, w: State, xs: seq<Input>, f: Name)
    requires f !in w.registry
    ensures StartedOf(mode, w, xs, f) == 0
    decreases |xs|
  {
    hide Step;
    if xs != [] {
      OnlyRegisteredRun(mode, w, xs[0]);
      UnregisteredNeverStarts(mode, Step(mode, w, xs[0]), xs[1..], f);
    }
  }

  // ---------- Notifications ----------

  lemma {:induction false} QueueIsBounded(mode: GrabMode, w: State, xs: seq<Input>)
    requires |w.queue| <= CHANNEL_CAPACITY
    ensures |Steps(mode, w, xs).queue| <= CHANNEL_CAPACITY
    decreases |xs|
  {
    if xs != [] {
      QueueStaysBounded(mode, w, xs[0]);
      hide Step;
      QueueIsBounded(mode, Step(mode, w, xs[0]), xs[1..]);
    }
  }

  lemma QueueStaysBounded(mode: GrabMode, w: State, x: Input)
    requires |w.queue| <= CHANNEL_CAPACITY
    ensures |Step(mode, w, x).queue| <= CHANNEL_CAPACITY
  {
    if x.Reports? || x.Ends? || x.Grabs? {
      NoStart(mode, w, x);
    } else {
      hide Encodable, Sent, Through, Clear, Puts, CanDos, CantDos, Lists;
      if x.Arrives? {
        SentIs(w.(log := w.log + [Got(x.packet)], phase := Top), Request(PreSleep, []), x.ok);
        if x.packet.args != [] {
          SentIs(w.(log := w.log + [Got(x.packet)], phase := Top), Request(WorkFail, [x.packet.args[0]]), x.ok);
        }
      }
    }
  }

  /**
   Unregistering a function that is not registered is documented as a no-op. In every state of
   every run it is one exactly when the connection's channel is full of notifications of that very
   function and already known to have lost some.
   */
  lemma UnregisteringAStrangerIff(mode: GrabMode, registry: map<Name, Option<nat>>, xs: seq<Input>, f: Name)
    requires f !in Steps(mode, Begin(registry), xs).registry
    ensures var w := Steps(mode, Begin(registry), xs);
      Step(mode, w, Unregisters(f)) == w <==>
        |w.queue| == 16 && w.lagged && forall g <- w.queue :: g == f
  {
    QueueIsBounded(mode, Begin(registry), xs);
    NotifiedOfNothingNewIff(Steps(mode, Begin(registry), xs), f);
  }

  lemma NotifiedOfNothingNewIff(w: State, f: Name)
    requires f !in w.registry && |w.queue| <= CHANNEL_CAPACITY
    ensures Notified(w.(registry := w.registry - {f}), f) == w
       <==> |w.queue| == CHANNEL_CAPACITY && w.lagged && forall g <- w.queue :: g == f
  {
    var q, q' := w.queue, Notified(w.(registry := w.registry - {f}), f).queue;
    assert w.registry - {f} == w.registry;
    if |q| == CHANNEL_CAPACITY {
      assert q' == q[1..] + [f];
      if q' == q {
        AllAlike(q, f, 0);
      }
      if forall g <- q :: g == f {
        forall i | 0 <= i < |q| ensures q[i] == f {
          assert q[i] in q;
        }
        assert q' == q;
      }
    }
  }

  /** A sequence that is its own rotation by one is constant. */
  lemma {:induction false} AllAlike(q: seq<Name>, f: Name, i: nat)
    requires q != [] && q == q[1..] + [f] && i <= |q|
    ensures forall j :: i <= j < |q| ==> q[j] == f
    decreases |q| - i
  {
    if i < |q| {
      AllAlike(q, f, i + 1);
    }
  }
}
