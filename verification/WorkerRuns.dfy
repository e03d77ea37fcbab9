/**
 A worker connection against a job server that keeps the protocol: one reply to each GRAB_JOB, and
 one NOOP to a worker that has announced its sleep and not been woken since.
 */
module WorkerRuns {
  import opened Wrappers
  import opened Protocol
  import opened WorkerCore

  datatype World = World(
    worker: State,
    toServer: seq<Packet>,
    toWorker: seq<Packet>,
    asleep: bool,                // the server has seen PRE_SLEEP and sent nothing since
    abilities: set<Name>)

  datatype Step =
    | Own(input: Input)                     // the worker, its handle or its handler does something
    | Receives(ok: bool)                    // the worker reads the next packet
    | Serves(reply: Packet, wake: bool)     // the server reads the next packet
    | Wakes                                 // the server has work for a sleeping worker

  predicate IsGrabReply(p: Packet) {
    Encodable(p) && (p.ptype.NoJob? || IsAssign(p.ptype))
  }

  /** Which assignments answer a GRAB_JOB: a job without a reducer answers GRAB_JOB_ALL by JOB_ASSIGN_UNIQ. */
  predicate Suits(grab: PacketType, assign: PacketType) {
    match grab
    case GrabJobUniq => assign.JobAssignUniq?
    case GrabJobAll => assign.JobAssignAll? || assign.JobAssignUniq?
    case _ => assign.JobAssign?
  }

  const NoopPacket := Packet(Res, Noop, [])

  predicate Enabled(w: World, s: Step) {
    match s
    case Own(x) => !x.Arrives?
    case Receives(_) => w.toWorker != [] && (w.worker.phase.AwaitReply? || w.worker.phase.Asleep?)
    case Serves(reply, _) =>
      && w.toServer != []
      && (IsGrab(w.toServer[0].ptype) ==>
            IsGrabReply(reply) && (reply.ptype.NoJob? || Suits(w.toServer[0].ptype, reply.ptype)))
    case Wakes => w.asleep
  }

  function AbleAfter1(abilities: set<Name>, p: Packet): set<Name> {
    if p.args == [] then abilities
    else if p.ptype.CanDo? || p.ptype.CanDoTimeout? then abilities + {p.args[0]}
    else if p.ptype.CantDo? then abilities - {p.args[0]}
    else abilities
  }

  /** What the server will think the worker can do when it has read these packets. */
  function AbleAfter(abilities: set<Name>, ps: seq<Packet>): set<Name> {
    if ps == [] then abilities else AbleAfter1(AbleAfter(abilities, ps[..|ps| - 1]), ps[|ps| - 1])
  }

  /** The packets put on the wire since the log was `before`; a new connection starts empty. */
  function Wired(toServer: seq<Packet>, news: seq<Obs>): seq<Packet> {
    if news == [] then toServer
    else
      var earlier := Wired(toServer, news[..|news| - 1]);
      match news[|news| - 1]
      case Opened(_) => []
      case Put(p) => earlier + [p]
      case Got(_) => earlier
  }

  predicate Hung(p: Phase) {
    p.Offline? || p.Finished?
  }

  /** The worker moves; a connection it has left is gone, with what the server knew of it. */
  function Moved(mode: GrabMode, w: World, x: Input): World {
    var v := WorkerCore.Step(mode, w.worker, x);
    if Hung(v.phase) then World(v, [], [], false, {})
    else if |v.log| < |w.worker.log| then w.(worker := v)
    else w.(worker := v, toServer := Wired(w.toServer, v.log[|w.worker.log|..]))
  }

  function Apply(mode: GrabMode, w: World, s: Step): World
    requires Enabled(w, s)
  {
    match s
    case Own(x) => Moved(mode, w, x)
    case Receives(ok) => Moved(mode, w.(toWorker := w.toWorker[1..]), Arrives(w.toWorker[0], ok))
    case Serves(reply, wake) =>
      var p := w.toServer[0];
      var w' := w.(toServer := w.toServer[1..], abilities := AbleAfter1(w.abilities, p));
      if IsGrab(p.ptype) then w'.(toWorker := w.toWorker + [reply], asleep := false)
      else if p.ptype.PreSleep? then (if wake then w'.(toWorker := w.toWorker + [NoopPacket]) else w'.(asleep := true))
      else w'
    case Wakes => w.(toWorker := w.toWorker + [NoopPacket], asleep := false)
  }

  function Count(ps: seq<Packet>, grab: bool): nat {
    if ps == [] then 0
    else Count(ps[1..], grab) + if (if grab then IsGrab(ps[0].ptype) else ps[0].ptype.PreSleep?) then 1 else 0
  }

  /** At most one request of the worker is open, and what is on the wire fits its phase. */
  predicate InStep(w: World) {
    var g, s := Count(w.toServer, true), Count(w.toServer, false);
    match w.worker.phase
    case AwaitReply =>
      && s == 0 && !w.asleep
      && ((g == 1 && w.toWorker == []) || (g == 0 && |w.toWorker| == 1 && IsGrabReply(w.toWorker[0])))
    case Asleep =>
      && g == 0
      && ((s == 1 && !w.asleep && w.toWorker == []) || (s == 0 && w.asleep && w.toWorker == [])
          || (s == 0 && !w.asleep && w.toWorker == [NoopPacket]))
    case _ => g == 0 && s == 0 && !w.asleep && w.toWorker == []
  }

  lemma {:induction false} CountSnoc(ps: seq<Packet>, p: Packet, grab: bool)
    ensures Count(ps + [p], grab)
         == Count(ps, grab) + if (if grab then IsGrab(p.ptype) else p.ptype.PreSleep?) then 1 else 0
  {
    if ps != [] {
      CountSnoc(ps[1..], p, grab);
      assert (ps + [p])[1..] == ps[1..] + [p];
    } else {
      assert ps + [p] == [p];
    }
  }

  lemma {:induction false} CountConcat(a: seq<Packet>, b: seq<Packet>, grab: bool)
    requires forall p <- b :: !IsGrab(p.ptype) && !p.ptype.PreSleep?
    ensures Count(a + b, grab) == Count(a, grab)
  {
    if b == [] {
      assert a + b == a;
    } else {
      var n := |b| - 1;
      CountConcat(a, b[..n], grab);
      CountSnoc(a + b[..n], b[n], grab);
      assert a + b == (a + b[..n]) + [b[n]];
    }
  }

  lemma {:induction false} WiredPuts(toServer: seq<Packet>, ps: seq<Packet>)
    ensures Wired(toServer, Puts(ps)) == toServer + ps
  {
    if ps != [] {
      var n := |ps| - 1;
      WiredPuts(toServer, ps[..n]);
      assert Puts(ps)[..n] == Puts(ps[..n]);
      assert toServer + ps == (toServer + ps[..n]) + [ps[n]];
    } else {
      assert toServer + ps == toServer;
    }
  }

  lemma {:induction false} WiredConcat(toServer: seq<Packet>, a: seq<Obs>, b: seq<Obs>)
    ensures Wired(toServer, a + b) == Wired(Wired(toServer, a), b)
  {
    if b == [] {
      assert a + b == a;
    } else {
      var n := |b| - 1;
      WiredConcat(toServer, a, b[..n]);
      assert (a + b)[..|a + b| - 1] == a + b[..n];
    }
  }

  // ---------- What each move puts on the wire ----------

  lemma SuffixIs(log: seq<Obs>, news: seq<Obs>)
    ensures (log + news)[|log|..] == news
  {
  }

  lemma MovedBy(mode: GrabMode, w: World, x: Input, news: seq<Obs>)
    requires var v := WorkerCore.Step(mode, w.worker, x); v.log == w.worker.log + news && !Hung(v.phase)
    ensures Moved(mode, w, x) == w.(worker := WorkerCore.Step(mode, w.worker, x), toServer := Wired(w.toServer, news))
  {
    SuffixIs(w.worker.log, news);
  }

  lemma AllThrough(ps: seq<Packet>, alive: bool, sends: nat)
    requires Through(ps, alive, sends) == |ps|
    ensures ps[..Through(ps, alive, sends)] == ps
  {
  }

  lemma RegistersMoved(mode: GrabMode, w: World, a: Attempt)
    requires var v := WorkerCore.Step(mode, w.worker, Attempts(a)); w.worker.phase.Offline? && v.phase.Draining?
    ensures var v := WorkerCore.Step(mode, w.worker, Attempts(a));
      && a.Registers? && Lists(w.worker.registry, a.order) && v.registry == w.worker.registry
      && v.queue == w.worker.queue
      && Moved(mode, w, Attempts(a)) == w.(worker := v, toServer := CanDos(w.worker.registry, a.order))
  {
    hide WorkerCore.Step;
    AttemptLogs(mode, w.worker, a);
    var ps, start := CanDos(w.worker.registry, a.order), [Opened(w.worker.alive)];
    hide Wired, CanDos, Lists, Moved, Puts;
    Assoc(w.worker.log, start, Puts(ps));
    MovedBy(mode, w, Attempts(a), start + Puts(ps));
    WiredAfresh(w.toServer, w.worker.alive, ps);
  }

  lemma WiredAfresh(toServer: seq<Packet>, live: bool, ps: seq<Packet>)
    ensures Wired(toServer, [Opened(live)] + Puts(ps)) == ps
  {
    hide Wired, Puts;
    WiredConcat(toServer, [Opened(live)], Puts(ps));
    WiredOne(toServer, Opened(live));
    WiredPuts([], ps);
    assert [] + ps == ps;
  }

  lemma AttemptLogs(mode: GrabMode, v: State, a: Attempt)
    requires WorkerCore.Step(mode, v, Attempts(a)).phase.Draining? && v.phase.Offline?
    ensures a.Registers? && Lists(v.registry, a.order)
    ensures var v' := WorkerCore.Step(mode, v, Attempts(a));
      && v'.registry == v.registry && v'.queue == v.queue
      && v'.log == v.log + [Opened(v.alive)] + Puts(CanDos(v.registry, a.order))
  {
    hide CanDos, Puts, Through;
    if a.Registers? && Lists(v.registry, a.order) && Through(CanDos(v.registry, a.order), true, a.sends) == |a.order| {
      AllThrough(CanDos(v.registry, a.order), true, a.sends);
    }
  }

  lemma WiredOne(toServer: seq<Packet>, o: Obs)
    ensures Wired(toServer, []) == toServer
    ensures Wired(toServer, [o]) == if o.Opened? then [] else if o.Put? then toServer + [o.packet] else toServer
  {
    assert [o][..0] == [];
  }

  lemma FlushMoved(mode: GrabMode, w: World, sends: nat)
    requires var v := WorkerCore.Step(mode, w.worker, Begins(sends)); w.worker.phase.Top? && v.phase.Grabbing?
    ensures var v := WorkerCore.Step(mode, w.worker, Begins(sends));
      && v.registry == w.worker.registry && v.queue == []
      && Moved(mode, w, Begins(sends)) == w.(worker := v, toServer := w.toServer + CantDos(w.worker.queue))
  {
    hide Through;
    AllThrough(CantDos(w.worker.queue), w.worker.alive, sends);
    MovedBy(mode, w, Begins(sends), Puts(CantDos(w.worker.queue)));
    WiredPuts(w.toServer, CantDos(w.worker.queue));
  }

  /** What the worker sends of its own accord, when it sends one packet. */
  function Says(mode: GrabMode, v: State, x: Input): Packet {
    if x.Reports? then ReportPacket(x.handle, x.report)
    else if x.Ends? && v.phase.Running? then ResultPacket(v.phase.handle, x.result)
    else Request(mode.GrabType(), [])
  }

  predicate IsBulk(v: State, x: Input) {
    (x.Attempts? && v.phase.Offline?) || (x.Begins? && v.phase.Top?)
  }

  lemma OneSend(mode: GrabMode, v: State, x: Input)
    requires !x.Arrives? && !IsBulk(v, x)
    ensures var v' := WorkerCore.Step(mode, v, x);
      && (v'.log == v.log || v'.log == v.log + [Put(Says(mode, v, x))])
      && (!x.Unregisters? && !(x.Drains? && v.phase.Draining?) ==>
            v'.registry == v.registry && v'.queue == v.queue && v'.lagged == v.lagged
            && v'.phase.Draining? == v.phase.Draining?)
  {
    hide Sent, ReportPacket, ResultPacket, Attempted, Flushed, Speaks;
    if x.Reports? || x.Ends? || x.Grabs? {
      SentIs(v, Says(mode, v, x), x.ok);
    }
  }

  /** A move that sends at most the packet p, and registers or discards nothing. */
  predicate SendsOne(v: State, v': State, got: seq<Obs>, p: Packet) {
    v'.registry == v.registry && v'.queue == v.queue && (v'.log == v.log + got || v'.log == v.log + got + [Put(p)])
  }

  lemma SendsOneMoved(mode: GrabMode, w: World, x: Input, got: seq<Obs>, p: Packet)
    requires var v := WorkerCore.Step(mode, w.worker, x); SendsOne(w.worker, v, got, p) && !Hung(v.phase)
    requires got == [] || (|got| == 1 && got[0].Got?)
    ensures var v := WorkerCore.Step(mode, w.worker, x);
      Moved(mode, w, x)
        == w.(worker := v, toServer := if v.log == w.worker.log + got then w.toServer else w.toServer + [p])
  {
    hide WorkerCore.Step, Wired;
    var v := WorkerCore.Step(mode, w.worker, x);
    WiredGot(w.toServer, got);
    if v.log == w.worker.log + got {
      MovedBy(mode, w, x, got);
    } else {
      Assoc(w.worker.log, got, [Put(p)]);
      MovedBy(mode, w, x, got + [Put(p)]);
      WiredConcat(w.toServer, got, [Put(p)]);
      WiredOne(w.toServer, Put(p));
    }
  }

  lemma WiredGot(toServer: seq<Packet>, got: seq<Obs>)
    requires got == [] || (|got| == 1 && got[0].Got?)
    ensures Wired(toServer, got) == toServer
  {
    if got != [] {
      assert got == [got[0]];
      WiredOne(toServer, got[0]);
    }
  }

  // ---------- The request/reply discipline ----------

  lemma CountNone()
    ensures Count([], true) == 0 && Count([], false) == 0
  {
  }

  lemma QuietMove(mode: GrabMode, w: World, x: Input)
    requires InStep(w) && !x.Arrives?
    requires !(x.Attempts? || x.Begins? || x.Grabs?)
    ensures InStep(Moved(mode, w, x))
  {
    hide InStep, Says;
    if x.Reports? || (x.Ends? && w.worker.phase.Running?) {
      SpeakingMove(mode, w, x);
    } else {
      StillMove(mode, w, x);
    }
  }

  /** A report or a result is no request. */
  lemma SpeakingMove(mode: GrabMode, w: World, x: Input)
    requires InStep(w) && (x.Reports? || (x.Ends? && w.worker.phase.Running?))
    ensures InStep(Moved(mode, w, x))
  {
    var v, p := WorkerCore.Step(mode, w.worker, x), Says(mode, w.worker, x);
    CountNone();
    WordsAreQuiet(mode, w.worker, x);
    CountSnoc(w.toServer, p, true);
    CountSnoc(w.toServer, p, false);
    OneSend(mode, w.worker, x);
    SpeakingPhase(mode, w.worker, x);
    hide Count, Wired, Says, WorkerCore.Step;
    assert w.worker.log + [] == w.worker.log;
    if !Hung(v.phase) {
      SendsOneMoved(mode, w, x, [], p);
    }
  }

  lemma SpeakingPhase(mode: GrabMode, v: State, x: Input)
    requires x.Reports? || (x.Ends? && v.phase.Running?)
    ensures var v' := WorkerCore.Step(mode, v, x);
      v'.phase == if x.Ends? then Top else v.phase
    ensures x.Reports? && WorkerCore.Step(mode, v, x) != v ==> v.phase.Running? || v.phase.Top? || v.phase.Grabbing?
  {
    hide Sent, ReportPacket, ResultPacket;
    SentIs(v, Says(mode, v, x), x.ok);
  }

  lemma StillMove(mode: GrabMode, w: World, x: Input)
    requires InStep(w) && !x.Arrives? && !(x.Attempts? || x.Begins? || x.Grabs?)
    requires !x.Reports? && !(x.Ends? && w.worker.phase.Running?)
    ensures InStep(Moved(mode, w, x))
  {
    hide Count, Wired;
    CountNone();
    assert w.worker.log + [] == w.worker.log;
    if !Hung(WorkerCore.Step(mode, w.worker, x).phase) {
      MovedBy(mode, w, x, []);
      WiredOne(w.toServer, Opened(true));
    }
  }

  lemma WordsAreQuiet(mode: GrabMode, v: State, x: Input)
    requires x.Reports? || (x.Ends? && v.phase.Running?)
    ensures !IsGrab(Says(mode, v, x).ptype) && !Says(mode, v, x).ptype.PreSleep?
  {
  }

  lemma RegisterMove(mode: GrabMode, w: World, a: Attempt)
    requires InStep(w) && w.worker.phase.Offline? && WorkerCore.Step(mode, w.worker, Attempts(a)).phase.Draining?
    ensures InStep(Moved(mode, w, Attempts(a)))
  {
    RegistersMoved(mode, w, a);
    CanDosAreQuiet(w.worker.registry, a.order);
    NoneQuiet(CanDos(w.worker.registry, a.order));
    hide Count, Wired, WorkerCore.Step, Moved, CanDos, Lists;
  }

  lemma FlushMove(mode: GrabMode, w: World, sends: nat)
    requires InStep(w) && w.worker.phase.Top? && WorkerCore.Step(mode, w.worker, Begins(sends)).phase.Grabbing?
    ensures InStep(Moved(mode, w, Begins(sends)))
  {
    FlushMoved(mode, w, sends);
    CountConcat(w.toServer, CantDos(w.worker.queue), true);
    CountConcat(w.toServer, CantDos(w.worker.queue), false);
    hide Count, Wired, WorkerCore.Step, Moved, CantDos;
  }

  lemma GrabMove(mode: GrabMode, w: World, ok: bool)
    requires InStep(w) && w.worker.phase.Grabbing?
    ensures InStep(Moved(mode, w, Grabs(ok)))
  {
    CountNone();
    var p := Request(mode.GrabType(), []);
    AlwaysEncodable(mode, p);
    var v := WorkerCore.Step(mode, w.worker, Grabs(ok));
    CountSnoc(w.toServer, p, true);
    CountSnoc(w.toServer, p, false);
    hide Count, Wired, Encodable;
    assert w.worker.log + [] == w.worker.log;
    if !Hung(v.phase) {
      SendsOneMoved(mode, w, Grabs(ok), [], p);
    }
  }

  lemma LoopMove(mode: GrabMode, w: World, x: Input)
    requires InStep(w) && (x.Attempts? || x.Begins? || x.Grabs?)
    ensures InStep(Moved(mode, w, x))
  {
    var v := WorkerCore.Step(mode, w.worker, x);
    hide Count, Wired, Attempted, Flushed, Grabbed;
    CountNone();
    if x.Attempts? && v.phase.Draining? && w.worker.phase.Offline? {
      RegisterMove(mode, w, x.attempt);
    } else if x.Begins? && v.phase.Grabbing? && w.worker.phase.Top? {
      FlushMove(mode, w, x.sends);
    } else if x.Grabs? && w.worker.phase.Grabbing? {
      GrabMove(mode, w, x.ok);
    } else if !Hung(v.phase) {
      if !x.Grabs? {
        BulkOrNothing(mode, w.worker, x);
      }
      assert v.log == w.worker.log + [];
      MovedBy(mode, w, x, []);
      WiredOne(w.toServer, Opened(true));
    }
  }

  /** Registering and flushing succeed or leave the connection. */
  lemma BulkOrNothing(mode: GrabMode, v: State, x: Input)
    requires x.Attempts? || x.Begins?
    ensures var v' := WorkerCore.Step(mode, v, x);
      && (Hung(v'.phase) || v' == v || (x.Attempts? && v'.phase.Draining?) || (x.Begins? && v'.phase.Grabbing?))
      && (x.Begins? && v.phase.Top? ==> v' != v)
  {
    hide Puts, CanDos, CantDos, Through, Clear;
  }

  lemma NoneQuiet(ps: seq<Packet>)
    requires forall q <- ps :: !IsGrab(q.ptype) && !q.ptype.PreSleep?
    ensures Count(ps, true) == 0 && Count(ps, false) == 0
  {
    CountConcat([], ps, true);
    CountConcat([], ps, false);
    assert [] + ps == ps;
  }

  /** What the worker says at once to a packet it reads while waiting. */
  function AnswerTo(q: Packet): Packet {
    if IsAssign(q.ptype) && q.args != [] then Request(WorkFail, [q.args[0]]) else Request(PreSleep, [])
  }

  lemma ArrivalSends(mode: GrabMode, v: State, q: Packet, ok: bool)
    requires Encodable(q) && (v.phase.AwaitReply? || v.phase.Asleep?)
    ensures var v' := WorkerCore.Step(mode, v, Arrives(q, ok));
      && SendsOne(v, v', [Got(q)], AnswerTo(q)) && v'.lagged == v.lagged
      && (v'.phase.Asleep? ==> q.ptype.NoJob? && v'.log == v.log + [Got(q)] + [Put(AnswerTo(q))])
      && (v'.phase.Asleep? || v'.phase.Top? || v'.phase.Running? || v'.phase.Offline?)
      && (v'.log == v.log + [Got(q)] || IsAssign(q.ptype) || q.ptype.NoJob?)
      && (q.ptype.NoJob? && v.phase.AwaitReply? ==> !v'.phase.Top? && !v'.phase.Running?)
      && (v.phase.Asleep? ==> v'.phase.Top? && v'.log == v.log + [Got(q)])
  {
    hide Sent, Encodable, CanDoPacket;
    SentIs(v.(log := v.log + [Got(q)], phase := Top), AnswerTo(q), ok);
    if IsAssign(q.ptype) {
      AssignmentsName(q);
    }
    SleepIsLogged(v.(log := v.log + [Got(q)], phase := Top), ok);
  }

  lemma SleepIsLogged(v: State, ok: bool)
    ensures var v' := Sent(v, Request(PreSleep, []), ok);
      v'.alive ==> v'.log == v.log + [Put(Request(PreSleep, []))]
  {
    AlwaysEncodable(Plain, Request(PreSleep, []));
  }

  lemma ReceiveMove(mode: GrabMode, w: World, ok: bool)
    requires InStep(w) && Enabled(w, Receives(ok))
    ensures InStep(Apply(mode, w, Receives(ok)))
  {
    hide Encodable, WorkerCore.Step;
    var q, u := w.toWorker[0], w.(toWorker := w.toWorker[1..]);
    var v, p := WorkerCore.Step(mode, w.worker, Arrives(q, ok)), AnswerTo(q);
    CountNone();
    NoopIsEncodable();
    ArrivalSends(mode, w.worker, q, ok);
    if IsAssign(q.ptype) {
      AssignmentsName(q);
    }
    if !Hung(v.phase) {
      SendsOneMoved(mode, u, Arrives(q, ok), [Got(q)], p);
      CountSnoc(w.toServer, p, true);
      CountSnoc(w.toServer, p, false);
      hide Count, Wired, Moved, Encodable;
    }
  }

  lemma NoopIsEncodable()
    ensures Encodable(NoopPacket)
  {
  }

  lemma ServerMove(mode: GrabMode, w: World, s: Step)
    requires InStep(w) && Enabled(w, s) && (s.Serves? || s.Wakes?)
    ensures InStep(Apply(mode, w, s))
  {
    if s.Serves? {
      assert w.toServer == [w.toServer[0]] + w.toServer[1..];
    }
  }

  lemma StaysInStep(mode: GrabMode, w: World, s: Step)
    requires InStep(w) && Enabled(w, s)
    ensures InStep(Apply(mode, w, s))
  {
    hide InStep;
    match s {
      case Own(x) => if x.Attempts? || x.Begins? || x.Grabs? { LoopMove(mode, w, x); } else { QuietMove(mode, w, x); }
      case Receives(ok) => ReceiveMove(mode, w, ok);
      case _ => ServerMove(mode, w, s);
    }
  }

  // ---------- Whole runs ----------

  function Start(registry: map<Name, Option<nat>>): World {
    World(Begin(registry), [], [], false, {})
  }

  predicate Legal(mode: GrabMode, w: World, ss: seq<Step>)
    decreases |ss|
  {
    ss == [] || (Enabled(w, ss[0]) && Legal(mode, Apply(mode, w, ss[0]), ss[1..]))
  }

  function After(mode: GrabMode, w: World, ss: seq<Step>): World
    requires Legal(mode, w, ss)
    decreases |ss|
  {
    if ss == [] then w else After(mode, Apply(mode, w, ss[0]), ss[1..])
  }

  lemma {:induction false} RunsConcat(mode: GrabMode, w: World, a: seq<Step>, b: seq<Step>)
    requires Legal(mode, w, a) && Legal(mode, After(mode, w, a), b)
    ensures Legal(mode, w, a + b) && After(mode, w, a + b) == After(mode, After(mode, w, a), b)
    decreases |a|
  {
    hide Apply, Enabled;
    if a == [] {
      assert a + b == b;
    } else {
      FrontOf(a, b);
      RunsConcat(mode, Apply(mode, w, a[0]), a[1..], b);
    }
  }

  lemma RunsOne(mode: GrabMode, w: World, s: Step)
    requires Enabled(w, s)
    ensures Legal(mode, w, [s]) && After(mode, w, [s]) == Apply(mode, w, s)
  {
    hide Apply, Enabled;
    assert [s][1..] == [];
    var w' := Apply(mode, w, s);
    assert Legal(mode, w', []) && After(mode, w', []) == w';
  }

  /** What the step gives the worker to act on, if it does. */
  predicate StepKeepsLedger(w: World, s: Step) {
    s.Own? ==> KeepsLedger(w.worker, s.input)
  }

  lemma StaysHonestIff(mode: GrabMode, w: World, s: Step)
    requires InStep(w) && Honest(w.worker) && Enabled(w, s)
    ensures Honest(Apply(mode, w, s).worker) <==> StepKeepsLedger(w, s)
  {
    match s {
      case Own(x) =>
        hide Honest, Count, Wired, KeepsLedger;
        HonestIff(mode, w.worker, x);
      case Receives(ok) =>
        hide Honest, Count, Wired, Encodable;
        HonestIff(mode, w.worker, Arrives(w.toWorker[0], ok));
      case _ =>
    }
  }

  /** No handler's result is refused by the codec, and no reporter outlives its handler. */
  predicate LedgerKeptIn(mode: GrabMode, w: World, ss: seq<Step>)
    requires Legal(mode, w, ss)
    decreases |ss|
  {
    ss == [] || (StepKeepsLedger(w, ss[0]) && LedgerKeptIn(mode, Apply(mode, w, ss[0]), ss[1..]))
  }

  lemma {:induction false} RunInStep(mode: GrabMode, w: World, ss: seq<Step>)
    requires InStep(w) && Legal(mode, w, ss)
    ensures InStep(After(mode, w, ss))
    ensures Honest(w.worker) && LedgerKeptIn(mode, w, ss) ==> Honest(After(mode, w, ss).worker)
    decreases |ss|
  {
    hide InStep, Honest, Apply, StepKeepsLedger;
    if ss != [] {
      StaysInStep(mode, w, ss[0]);
      if Honest(w.worker) {
        StaysHonestIff(mode, w, ss[0]);
      }
      RunInStep(mode, Apply(mode, w, ss[0]), ss[1..]);
    }
  }

  /**
   In every reachable state at most one GRAB_JOB is unanswered, what a sleeping worker reads is a
   NOOP, and what a waiting one reads is the reply to its request.
   */
  lemma ConformingRun(mode: GrabMode, registry: map<Name, Option<nat>>, ss: seq<Step>)
    requires Legal(mode, Start(registry), ss)
    ensures var w := After(mode, Start(registry), ss);
      && Count(w.toServer, true) + |w.toWorker| <= 1
      && (w.toWorker != [] && w.worker.phase.Asleep? ==> w.toWorker[0].ptype.Noop?)
      && (w.toWorker != [] && w.worker.phase.AwaitReply? ==> IsGrabReply(w.toWorker[0]))
      && (w.toWorker != [] ==> w.worker.phase.Asleep? || w.worker.phase.AwaitReply?)
  {
    CountNone();
    RunInStep(mode, Start(registry), ss);
  }

  /**
   Against such a server no assignment of any connection goes without its one terminal packet, in
   every run in which no result is too large for the codec and no reporter outlives its handler.
   */
  lemma EveryAssignmentIsAnswered(mode: GrabMode, registry: map<Name, Option<nat>>, ss: seq<Step>)
    requires Legal(mode, Start(registry), ss) && LedgerKeptIn(mode, Start(registry), ss)
    ensures var w := After(mode, Start(registry), ss).worker;
      !Audit(w.log).Broken? && (w.alive ==> AtPhase(Audit(w.log), w.phase))
  {
    CountNone();
    RunInStep(mode, Start(registry), ss);
  }

  /** A worker that waits is never forgotten: its request or the answer to it is on its way. */
  lemma NobodyIsForgotten(mode: GrabMode, registry: map<Name, Option<nat>>, ss: seq<Step>)
    requires Legal(mode, Start(registry), ss)
    ensures var w := After(mode, Start(registry), ss);
      && (w.worker.phase.AwaitReply? ==> Count(w.toServer, true) == 1 || w.toWorker != [])
      && (w.worker.phase.Asleep? ==> Count(w.toServer, false) == 1 || w.asleep || w.toWorker != [])
  {
    CountNone();
    RunInStep(mode, Start(registry), ss);
  }

  // ---------- What a job shows ----------

  predicate OfMode(mode: GrabMode, p: Packet) {
    && (IsGrab(p.ptype) ==> p.ptype == mode.GrabType())
    && (IsAssign(p.ptype) ==> Suits(mode.GrabType(), p.ptype) && |p.args| == p.ptype.ArgCount())
  }

  predicate AllOfMode(mode: GrabMode, ps: seq<Packet>) {
    forall p <- ps :: OfMode(mode, p)
  }

  lemma {:induction false} WiredOfMode(mode: GrabMode, toServer: seq<Packet>, news: seq<Obs>)
    requires AllOfMode(mode, toServer) && forall o <- news :: o.Put? ==> OfMode(mode, o.packet)
    ensures AllOfMode(mode, Wired(toServer, news))
  {
    hide OfMode;
    if news != [] {
      WiredOfMode(mode, toServer, news[..|news| - 1]);
    }
  }

  /** What the log has gained is of the mode. */
  predicate GainsOfMode(mode: GrabMode, before: seq<Obs>, after: seq<Obs>) {
    |before| <= |after| && forall o <- after[|before|..] :: o.Put? ==> OfMode(mode, o.packet)
  }

  lemma Gains(mode: GrabMode, before: seq<Obs>, news: seq<Obs>)
    requires forall o <- news :: o.Put? ==> OfMode(mode, o.packet)
    ensures GainsOfMode(mode, before, before + news)
  {
    SuffixIs(before, news);
  }

  lemma PutsOfMode(mode: GrabMode, ps: seq<Packet>, live: bool)
    requires forall p <- ps :: !IsGrab(p.ptype) && !IsAssign(p.ptype)
    ensures forall o <- [Opened(live)] + Puts(ps) :: o.Put? ==> OfMode(mode, o.packet)
  {
  }

  lemma AttemptOfMode(mode: GrabMode, v: State, a: Attempt)
    ensures GainsOfMode(mode, v.log, Attempted(v, a).log)
  {
    hide CanDoPacket, Puts, CanDos;
    hide Through;
    if !a.Refused? && Lists(v.registry, a.order) {
      var all := CanDos(v.registry, a.order);
      var ps := all[..Through(all, true, a.sends)];
      CanDosAreQuiet(v.registry, a.order);
      PutsOfMode(mode, ps, v.alive);
      Gains(mode, v.log, [Opened(v.alive)] + Puts(ps));
      Assoc(v.log, [Opened(v.alive)], Puts(ps));
      hide GainsOfMode;
    }
  }

  lemma FlushOfMode(mode: GrabMode, v: State, sends: nat)
    ensures GainsOfMode(mode, v.log, Flushed(v, sends).log)
  {
    var ps := CantDos(v.queue);
    var sent := ps[..Through(ps, v.alive, sends)];
    PutsOfMode(mode, sent, true);
    hide GainsOfMode, Puts, CantDos, OfMode, Through;
    assert forall o <- Puts(sent) :: o in [Opened(true)] + Puts(sent);
    Gains(mode, v.log, Puts(sent));
  }

  lemma ArrivalOfMode(mode: GrabMode, v: State, q: Packet, ok: bool)
    requires Encodable(q)
    ensures GainsOfMode(mode, v.log, WorkerCore.Step(mode, v, Arrives(q, ok)).log)
  {
    if v.phase.AwaitReply? || v.phase.Asleep? {
      ArrivalSends(mode, v, q, ok);
      Gains(mode, v.log, [Got(q)]);
      Gains(mode, v.log, [Got(q)] + [Put(AnswerTo(q))]);
      Assoc(v.log, [Got(q)], [Put(AnswerTo(q))]);
      hide GainsOfMode, WorkerCore.Step;
    } else {
      Gains(mode, v.log, []);
      assert v.log + [] == v.log;
    }
  }

  lemma SendsOfMode(mode: GrabMode, v: State, x: Input)
    ensures GainsOfMode(mode, v.log, WorkerCore.Step(mode, v, x).log)
  {
    hide GainsOfMode, Attempted, Flushed, Arrived, Encodable;
    Gains(mode, v.log, []);
    assert v.log + [] == v.log;
    if IsBulk(v, x) && x.Attempts? {
      AttemptOfMode(mode, v, x.attempt);
    } else if IsBulk(v, x) {
      FlushOfMode(mode, v, x.sends);
    } else if x.Arrives? {
      if Encodable(x.packet) {
        ArrivalOfMode(mode, v, x.packet, x.ok);
      }
    } else {
      hide WorkerCore.Step;
      OneSend(mode, v, x);
      SaysOfMode(mode, v, x);
      Gains(mode, v.log, [Put(Says(mode, v, x))]);
    }
  }

  lemma SaysOfMode(mode: GrabMode, v: State, x: Input)
    ensures OfMode(mode, Says(mode, v, x))
  {
  }

  lemma StaysOfMode(mode: GrabMode, w: World, s: Step)
    requires AllOfMode(mode, w.toServer) && AllOfMode(mode, w.toWorker) && Enabled(w, s)
    ensures var w' := Apply(mode, w, s); AllOfMode(mode, w'.toServer) && AllOfMode(mode, w'.toWorker)
  {
    hide WorkerCore.Step, Wired;
    if s.Own? || s.Receives? {
      var x := if s.Own? then s.input else Arrives(w.toWorker[0], s.ok);
      var log := WorkerCore.Step(mode, w.worker, x).log;
      SendsOfMode(mode, w.worker, x);
      WiredOfMode(mode, w.toServer, log[|w.worker.log|..]);
    } else if s.Serves? {
      assert OfMode(mode, w.toServer[0]);
    }
  }

  lemma {:induction false} RunOfMode(mode: GrabMode, w: World, ss: seq<Step>)
    requires AllOfMode(mode, w.toServer) && AllOfMode(mode, w.toWorker) && Legal(mode, w, ss)
    ensures AllOfMode(mode, After(mode, w, ss).toServer) && AllOfMode(mode, After(mode, w, ss).toWorker)
    decreases |ss|
  {
    hide AllOfMode, Apply;
    if ss != [] {
      StaysOfMode(mode, w, ss[0]);
      RunOfMode(mode, Apply(mode, w, ss[0]), ss[1..]);
    }
  }

  lemma JobShows(mode: GrabMode, p: Packet)
    requires OfMode(mode, p) && IsAssign(p.ptype)
    ensures (JobOf(p).unique.Some? <==> !mode.Plain?) && (JobOf(p).reducer.Some? ==> mode.All?)
  {
  }

  /**
   In every run the job that a worker is about to start shows a unique id exactly when the worker
   grabs with Uniq or All, and a reducer only if it grabs with All.
   */
  lemma JobsShowWhatTheModeGrabs(mode: GrabMode, registry: map<Name, Option<nat>>, ss: seq<Step>)
    requires Legal(mode, Start(registry), ss)
    ensures var w := After(mode, Start(registry), ss);
      w.worker.phase.AwaitReply? && w.toWorker != [] && IsAssign(w.toWorker[0].ptype) ==>
        && (JobOf(w.toWorker[0]).unique.Some? <==> !mode.Plain?)
        && (JobOf(w.toWorker[0]).reducer.Some? ==> mode.All?)
  {
    RunOfMode(mode, Start(registry), ss);
    var w := After(mode, Start(registry), ss);
    hide After, Legal, OfMode, JobOf;
    if w.toWorker != [] && IsAssign(w.toWorker[0].ptype) {
      assert OfMode(mode, w.toWorker[0]);
      JobShows(mode, w.toWorker[0]);
    }
  }

  // ---------- What the server thinks the worker can do ----------

  /** The abilities the server holds for this connection once it has read all that was sent. */
  function Advertised(w: World): set<Name> {
    AbleAfter(w.abilities, w.toServer)
  }

  /** Functions a queued notification will still retract on this connection. */
  function ToRetract(v: State): set<Name> {
    if v.phase.Draining? && !v.lagged then {} else NamesIn(v.queue)
  }

  predicate Retired(v: State) {
    forall f <- v.queue :: f !in v.registry
  }

  /** The server knows of every registered function, and of no other that is not about to go. */
  predicate AbilitiesKept(w: World) {
    && Retired(w.worker)
    && if Hung(w.worker.phase) then w.toServer == [] && w.abilities == {}
       else w.worker.registry.Keys <= Advertised(w) <= w.worker.registry.Keys + ToRetract(w.worker)
  }

  /**
   The two ways a retraction is lost: unregistering a function between the CAN_DO packets and the
   discard that follows them, and pushing a notification out of a full channel.
   */
  predicate Forgets(w: World, f: Name) {
    var v := w.worker;
    && !Hung(v.phase)
    && if v.phase.Draining? && !v.lagged then |v.queue| < CHANNEL_CAPACITY && f in v.registry
       else
         && |v.queue| >= CHANNEL_CAPACITY
         && v.queue[0] in Advertised(w) && v.queue[0] !in v.queue[1..] && v.queue[0] != f
  }

  lemma {:induction false} AbleConcat(able: set<Name>, a: seq<Packet>, b: seq<Packet>)
    ensures AbleAfter(able, a + b) == AbleAfter(AbleAfter(able, a), b)
  {
    if b == [] {
      assert a + b == a;
    } else {
      var n := |b| - 1;
      AbleConcat(able, a, b[..n]);
      assert (a + b)[..|a + b| - 1] == a + b[..n];
    }
  }

  lemma AbleOne(able: set<Name>, p: Packet)
    ensures AbleAfter(able, [p]) == AbleAfter1(able, p)
  {
    assert [p][..0] == [];
  }

  lemma NamesSnoc(names: seq<Name>)
    requires names != []
    ensures NamesIn(names) == NamesIn(names[..|names| - 1]) + {names[|names| - 1]}
  {
    assert names == names[..|names| - 1] + [names[|names| - 1]];
  }

  lemma {:induction false} AbleCantDos(able: set<Name>, names: seq<Name>)
    ensures AbleAfter(able, CantDos(names)) == able - NamesIn(names)
  {
    if names != [] {
      var n := |names| - 1;
      AbleCantDos(able, names[..n]);
      assert CantDos(names)[..n] == CantDos(names[..n]);
      NamesSnoc(names);
    }
  }

  lemma CanDosSnoc(registry: map<Name, Option<nat>>, order: seq<Name>)
    requires order != [] && forall f <- order :: f in registry
    ensures var n, ps := |order| - 1, CanDos(registry, order);
      ps[..n] == CanDos(registry, order[..n]) && ps[n] == CanDoPacket(order[n], registry[order[n]])
  {
  }

  lemma {:induction false} AbleCanDos(able: set<Name>, registry: map<Name, Option<nat>>, order: seq<Name>)
    requires forall f <- order :: f in registry
    ensures AbleAfter(able, CanDos(registry, order)) == able + NamesIn(order)
  {
    if order != [] {
      var n := |order| - 1;
      AbleCanDos(able, registry, order[..n]);
      CanDosSnoc(registry, order);
      NamesSnoc(order);
      hide CanDos;
    }
  }

  lemma AbleWhenServed(able: set<Name>, ps: seq<Packet>)
    requires ps != []
    ensures AbleAfter(AbleAfter1(able, ps[0]), ps[1..]) == AbleAfter(able, ps)
  {
    assert ps == [ps[0]] + ps[1..];
    AbleConcat(able, [ps[0]], ps[1..]);
    AbleOne(able, ps[0]);
  }

  /** A move that changes neither the registry nor the queue, and sends no CAN_DO or CANT_DO. */
  lemma QuietForAbilities(w: World, w': World)
    requires AbilitiesKept(w) && !Hung(w.worker.phase)
    requires w'.worker.registry == w.worker.registry && w'.worker.queue == w.worker.queue
    requires ToRetract(w.worker) <= ToRetract(w'.worker) && !Hung(w'.worker.phase)
    requires Advertised(w') == Advertised(w)
    ensures AbilitiesKept(w')
  {
    hide Advertised, ToRetract;
  }

  lemma HungKept(mode: GrabMode, w: World, x: Input)
    requires AbilitiesKept(w) && Hung(WorkerCore.Step(mode, w.worker, x).phase)
    requires Retired(WorkerCore.Step(mode, w.worker, x))
    ensures AbilitiesKept(Moved(mode, w, x))
  {
  }

  /** The registry only shrinks, and the queue gains nothing but what is unregistered. */
  lemma StaysRetired(mode: GrabMode, v: State, x: Input)
    requires Retired(v)
    ensures Retired(WorkerCore.Step(mode, v, x))
  {
    if x.Arrives? {
      if Encodable(x.packet) && (v.phase.AwaitReply? || v.phase.Asleep?) {
        ArrivalSends(mode, v, x.packet, x.ok);
        hide WorkerCore.Step;
      }
    } else if IsBulk(v, x) {
      hide Puts, CanDos, CantDos, Through, Clear, Lists, Encodable;
    } else {
      OneSend(mode, v, x);
      hide Sent, Attempted, Flushed;
    }
  }

  /** Unregistering keeps the bound exactly when it does not forget. */
  lemma ForgetsIff(mode: GrabMode, w: World, f: Name)
    requires AbilitiesKept(w)
    ensures AbilitiesKept(Moved(mode, w, Unregisters(f))) <==> !Forgets(w, f)
  {
    var w' := Moved(mode, w, Unregisters(f));
    UnregisteredWorld(mode, w, f);
    if w.worker.queue != [] {
      FirstAndRest(w.worker.queue);
    }
    hide Wired, AbleAfter, Moved;
  }

  lemma FirstAndRest(q: seq<Name>)
    requires q != []
    ensures NamesIn(q) == {q[0]} + NamesIn(q[1..])
  {
    assert q == [q[0]] + q[1..];
  }

  lemma UnregisteredWorld(mode: GrabMode, w: World, f: Name)
    ensures var w', v, q := Moved(mode, w, Unregisters(f)), w.worker, w.worker.queue;
      && w'.worker.registry == v.registry - {f} && w'.worker.phase == v.phase
      && (|q| < CHANNEL_CAPACITY ==> w'.worker.queue == q + [f] && w'.worker.lagged == v.lagged)
      && (|q| >= CHANNEL_CAPACITY ==> w'.worker.queue == q[1..] + [f] && w'.worker.lagged)
      && (if Hung(v.phase) then w'.toServer == [] && w'.abilities == {}
          else w'.toServer == w.toServer && w'.abilities == w.abilities)
  {
    hide Wired;
    if Hung(w.worker.phase) {
      hide Notified;
      NotifiedIs(w.worker.(registry := w.worker.registry - {f}), f);
    } else {
      hide Moved, Notified;
      NotifiedIs(w.worker.(registry := w.worker.registry - {f}), f);
      assert w.worker.log + [] == w.worker.log;
      WiredOne(w.toServer, Opened(true));
      MovedBy(mode, w, Unregisters(f), []);
    }
  }

  lemma NotifiedIs(v: State, f: Name)
    ensures var v' := Notified(v, f);
      && v' == v.(queue := v'.queue, lagged := v'.lagged)
      && (|v.queue| < CHANNEL_CAPACITY ==> v'.queue == v.queue + [f] && v'.lagged == v.lagged)
      && (|v.queue| >= CHANNEL_CAPACITY ==> v'.queue == v.queue[1..] + [f] && v'.lagged)
  {
  }

  /** A packet that says nothing about abilities. */
  lemma SentForAbilities(w: World, w': World, p: Packet)
    requires w'.abilities == w.abilities && (w'.toServer == w.toServer || w'.toServer == w.toServer + [p])
    requires !p.ptype.CanDo? && !p.ptype.CanDoTimeout? && !p.ptype.CantDo?
    ensures Advertised(w') == Advertised(w)
  {
    AbleConcat(w.abilities, w.toServer, [p]);
    AbleOne(Advertised(w), p);
  }

  lemma OneMoveKeeps(mode: GrabMode, w: World, u: World, x: Input, got: seq<Obs>, p: Packet)
    requires AbilitiesKept(w) && !Hung(w.worker.phase) && u == w.(toWorker := u.toWorker)
    requires var v := WorkerCore.Step(mode, w.worker, x);
      && SendsOne(w.worker, v, got, p) && !Hung(v.phase) && v.lagged == w.worker.lagged
      && (w.worker.phase.Draining? == v.phase.Draining?)
    requires got == [] || (|got| == 1 && got[0].Got?)
    requires !p.ptype.CanDo? && !p.ptype.CanDoTimeout? && !p.ptype.CantDo?
    ensures AbilitiesKept(Moved(mode, u, x))
  {
    hide AbleAfter, Wired, WorkerCore.Step;
    SendsOneMoved(mode, u, x, got, p);
    SentForAbilities(w, Moved(mode, u, x), p);
    QuietForAbilities(w, Moved(mode, u, x));
  }

  lemma RegisteringKeepsAbilities(mode: GrabMode, w: World, a: Attempt)
    requires AbilitiesKept(w) && w.worker.phase.Offline? && WorkerCore.Step(mode, w.worker, Attempts(a)).phase.Draining?
    ensures AbilitiesKept(Moved(mode, w, Attempts(a)))
  {
    hide AbleAfter, Wired, WorkerCore.Step, Moved;
    RegistersMoved(mode, w, a);
    AbleCanDos({}, w.worker.registry, a.order);
  }

  lemma FlushingKeepsAbilities(mode: GrabMode, w: World, sends: nat)
    requires AbilitiesKept(w) && w.worker.phase.Top? && WorkerCore.Step(mode, w.worker, Begins(sends)).phase.Grabbing?
    ensures AbilitiesKept(Moved(mode, w, Begins(sends)))
  {
    hide AbleAfter, Wired, WorkerCore.Step, Moved;
    FlushMoved(mode, w, sends);
    AbleConcat(w.abilities, w.toServer, CantDos(w.worker.queue));
    AbleCantDos(Advertised(w), w.worker.queue);
  }

  lemma DrainingKeepsAbilities(mode: GrabMode, w: World)
    requires AbilitiesKept(w) && w.worker.phase.Draining?
    ensures AbilitiesKept(Moved(mode, w, Drains))
  {
    hide AbleAfter, Wired;
    assert WorkerCore.Step(mode, w.worker, Drains).log == w.worker.log + [];
    WiredOne(w.toServer, Opened(true));
    MovedBy(mode, w, Drains, []);
  }

  lemma LoopKeepsAbilities(mode: GrabMode, w: World, x: Input)
    requires AbilitiesKept(w) && !Hung(WorkerCore.Step(mode, w.worker, x).phase)
    requires IsBulk(w.worker, x) || (x.Drains? && w.worker.phase.Draining?)
    ensures AbilitiesKept(Moved(mode, w, x))
  {
    hide AbilitiesKept, Moved, Attempted, Flushed, WorkerCore.Drained;
    if x.Drains? {
      DrainingKeepsAbilities(mode, w);
    } else {
      BulkOrNothing(mode, w.worker, x);
      if x.Attempts? {
        RegisteringKeepsAbilities(mode, w, x.attempt);
      } else {
        FlushingKeepsAbilities(mode, w, x.sends);
      }
    }
  }

  lemma OtherKeepsAbilities(mode: GrabMode, w: World, x: Input)
    requires AbilitiesKept(w) && !Hung(WorkerCore.Step(mode, w.worker, x).phase) && !Hung(w.worker.phase)
    requires !x.Unregisters? && !x.Arrives? && !IsBulk(w.worker, x) && !(x.Drains? && w.worker.phase.Draining?)
    ensures AbilitiesKept(Moved(mode, w, x))
  {
    hide AbleAfter, Wired, AbilitiesKept, Moved;
    assert w.worker.log + [] == w.worker.log;
    OneSend(mode, w.worker, x);
    hide WorkerCore.Step;
    OneMoveKeeps(mode, w, w, x, [], Says(mode, w.worker, x));
  }

  lemma ReceivedKeepsAbilities(mode: GrabMode, w: World, ok: bool)
    requires AbilitiesKept(w) && Enabled(w, Receives(ok))
    ensures AbilitiesKept(Apply(mode, w, Receives(ok)))
  {
    hide AbleAfter, Wired;
    var q, u := w.toWorker[0], w.(toWorker := w.toWorker[1..]);
    var x := Arrives(q, ok);
    StaysRetired(mode, w.worker, x);
    if !Hung(WorkerCore.Step(mode, w.worker, x).phase) {
      hide AbilitiesKept, Moved;
      if Encodable(q) {
        ArrivalSends(mode, w.worker, q, ok);
        OneMoveKeeps(mode, w, u, x, [Got(q)], AnswerTo(q));
      } else {
        assert w.worker.log + [] == w.worker.log;
        OneMoveKeeps(mode, w, u, x, [], AnswerTo(q));
      }
    }
  }

  lemma ServedKeepsAbilities(mode: GrabMode, w: World, s: Step)
    requires AbilitiesKept(w) && Enabled(w, s) && (s.Serves? || s.Wakes?)
    ensures AbilitiesKept(Apply(mode, w, s))
  {
    hide AbleAfter;
    if s.Serves? {
      AbleWhenServed(w.abilities, w.toServer);
    }
  }

  predicate Loses(w: World, s: Step) {
    s.Own? && s.input.Unregisters? && Forgets(w, s.input.func)
  }

  lemma StaysKept(mode: GrabMode, w: World, s: Step)
    requires AbilitiesKept(w) && Enabled(w, s)
    ensures AbilitiesKept(Apply(mode, w, s)) <==> !Loses(w, s)
  {
    hide AbilitiesKept, Moved, Forgets;
    match s {
      case Receives(ok) => ReceivedKeepsAbilities(mode, w, ok);
      case Serves(_, _) => ServedKeepsAbilities(mode, w, s);
      case Wakes => ServedKeepsAbilities(mode, w, s);
      case Own(x) => OwnStaysKept(mode, w, x);
    }
  }

  lemma OwnStaysKept(mode: GrabMode, w: World, x: Input)
    requires AbilitiesKept(w) && !x.Arrives?
    ensures AbilitiesKept(Moved(mode, w, x)) <==> !(x.Unregisters? && Forgets(w, x.func))
  {
    hide AbleAfter, Wired, Moved, Forgets;
    if x.Unregisters? {
      ForgetsIff(mode, w, x.func);
    } else if Hung(WorkerCore.Step(mode, w.worker, x).phase) {
      StaysRetired(mode, w.worker, x);
      HungKept(mode, w, x);
    } else if IsBulk(w.worker, x) || (x.Drains? && w.worker.phase.Draining?) {
      LoopKeepsAbilities(mode, w, x);
    } else {
      OtherKeepsAbilities(mode, w, x);
    }
  }

  predicate NeverLoses(mode: GrabMode, w: World, ss: seq<Step>)
    requires Legal(mode, w, ss)
    decreases |ss|
  {
    ss == [] || (!Loses(w, ss[0]) && NeverLoses(mode, Apply(mode, w, ss[0]), ss[1..]))
  }

  lemma {:induction false} RunKeepsAbilities(mode: GrabMode, w: World, ss: seq<Step>)
    requires AbilitiesKept(w) && Legal(mode, w, ss) && NeverLoses(mode, w, ss)
    ensures AbilitiesKept(After(mode, w, ss))
    decreases |ss|
  {
    hide AbilitiesKept, Apply, Loses;
    if ss != [] {
      StaysKept(mode, w, ss[0]);
      RunKeepsAbilities(mode, Apply(mode, w, ss[0]), ss[1..]);
    }
  }

  /**
   While no retraction is lost, a connected worker is offered work for exactly the functions it has
   registered, and for those whose CANT_DO is still queued.
   */
  lemma AbilitiesAreBounded(mode: GrabMode, registry: map<Name, Option<nat>>, ss: seq<Step>)
    requires Legal(mode, Start(registry), ss) && NeverLoses(mode, Start(registry), ss)
    ensures var w := After(mode, Start(registry), ss);
      !Hung(w.worker.phase) ==>
        && w.worker.registry.Keys <= Advertised(w)
        && Advertised(w) <= w.worker.registry.Keys + NamesIn(w.worker.queue)
  {
    RunKeepsAbilities(mode, Start(registry), ss);
  }

  // ---------- Retractions that are lost ----------

  /** Unregistering between the CAN_DO and the discard: the server goes on offering the function. */
  lemma DrainRace(mode: GrabMode, w: World, f: Name)
    requires AbilitiesKept(w) && w.worker.phase.Draining? && !w.worker.lagged
    requires |w.worker.queue| < CHANNEL_CAPACITY && f in w.worker.registry
    ensures var w' := Moved(mode, Moved(mode, w, Unregisters(f)), Drains);
      w'.worker.phase.Top? && f in Advertised(w') && f !in w'.worker.registry && w'.worker.queue == []
  {
    hide Wired, AbleAfter;
    assert w.worker.log + [] == w.worker.log;
    WiredOne(w.toServer, Opened(true));
    MovedBy(mode, w, Unregisters(f), []);
    MovedBy(mode, Moved(mode, w, Unregisters(f)), Drains, []);
  }

  /** A notification pushed out of a full channel is gone, and no flush makes up for it. */
  lemma OverflowLoses(mode: GrabMode, w: World, f: Name, sends: nat)
    requires AbilitiesKept(w) && w.worker.phase.Top? && |w.worker.queue| == CHANNEL_CAPACITY
    requires var g := w.worker.queue[0]; g in Advertised(w) && g !in w.worker.queue[1..] && g != f
    ensures var g, u := w.worker.queue[0], Moved(mode, w, Unregisters(f));
      && g in Advertised(u) && g !in u.worker.registry && g !in u.worker.queue && u.worker.phase.Top?
      && var v := Moved(mode, u, Begins(sends));
        v.worker.phase.Grabbing? ==> g in Advertised(v) && g !in v.worker.registry
  {
    hide Wired, AbleAfter, Flushed;
    assert w.worker.log + [] == w.worker.log;
    WiredOne(w.toServer, Opened(true));
    MovedBy(mode, w, Unregisters(f), []);
    var u := Moved(mode, w, Unregisters(f));
    if WorkerCore.Step(mode, u.worker, Begins(sends)).phase.Grabbing? {
      FlushMoved(mode, u, sends);
      AbleConcat(u.abilities, u.toServer, CantDos(u.worker.queue));
      AbleCantDos(Advertised(u), u.worker.queue);
    }
  }
}
