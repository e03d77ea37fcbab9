/**
 How a worker's connection task ends once Worker::shutdown has set the flag (src/worker/mod.rs):
 the flag is looked at between jobs and while asleep or backing off, but not while the answer to
 GRAB_JOB is read or a handler runs.
 */
module WorkerShutdown {
  import opened Wrappers
  import opened Protocol
  import opened WorkerCore
  import opened WorkerRuns

  /** How many changes of phase a task that is shutting down can still make. */
  function Rank(p: Phase): nat {
    match p
    case Finished => 0
    case Offline => 1
    case Top => 1
    case Draining => 2
    case Asleep => 2
    case Running(_, _) => 2
    case AwaitReply => 3
    case Grabbing => 4
  }

  /** The task waits for the server or for a handler, and not for its own next step. */
  predicate Held(p: Phase) {
    p.AwaitReply? || p.Running?
  }

  /** What the task does by itself next. */
  predicate IsOwn(p: Phase, x: Input) {
    match p
    case Offline => x.Attempts? || x.Interrupted?
    case Draining => x.Drains?
    case Top => x.Begins?
    case Grabbing => x.Grabs?
    case Asleep => x.Interrupted?
    case _ => false
  }

  /** With the flag set every step of its own takes the task on, and every change is towards the end. */
  lemma RankFalls(mode: GrabMode, w: State, x: Input)
    requires w.shutdown
    ensures var v := WorkerCore.Step(mode, w, x);
      && v.shutdown
      && (v.phase == w.phase || Rank(v.phase) < Rank(w.phase))
      && (IsOwn(w.phase, x) ==> v.phase != w.phase)
  {
    hide Sent, Encodable, Puts, CanDos, CantDos, Through, Lists, ReportPacket, ResultPacket;
    if x.Reports? {
      SentIs(w, ReportPacket(x.handle, x.report), x.ok);
    } else if x.Ends? && w.phase.Running? {
      SentIs(w, ResultPacket(w.phase.handle, x.result), x.ok);
    } else if x.Grabs? {
      SentIs(w, Request(mode.GrabType(), []), x.ok);
    } else if x.Arrives? {
      var w' := w.(log := w.log + [Got(x.packet)], phase := Top);
      SentIs(w', Request(PreSleep, []), x.ok);
      if Encodable(x.packet) && IsAssign(x.packet.ptype) {
        AssignmentsName(x.packet);
        SentIs(w', Request(WorkFail, [x.packet.args[0]]), x.ok);
      }
    }
  }

  /** The steps of the task's own in a run. */
  function OwnSteps(mode: GrabMode, w: State, xs: seq<Input>): nat
    decreases |xs|
  {
    if xs == [] then 0
    else OwnSteps(mode, WorkerCore.Step(mode, w, xs[0]), xs[1..]) + if IsOwn(w.phase, xs[0]) then 1 else 0
  }

  /**
   However inputs interleave, a task makes at most four more steps of its own after the flag is
   set, and no more than its phase leaves it.
   */
  lemma {:induction false} FewStepsLeft(mode: GrabMode, w: State, xs: seq<Input>)
    requires w.shutdown
    ensures OwnSteps(mode, w, xs) + Rank(Steps(mode, w, xs).phase) <= Rank(w.phase) <= 4
    decreases |xs|
  {
    hide WorkerCore.Step, IsOwn;
    if xs != [] {
      RankFalls(mode, w, xs[0]);
      FewStepsLeft(mode, WorkerCore.Step(mode, w, xs[0]), xs[1..]);
    }
  }

  /** A step that the task can take by itself now. */
  function OwnNext(p: Phase): Input
    requires !Held(p) && !p.Finished?
  {
    match p
    case Draining => Drains
    case Top => Begins(0)
    case Grabbing => Grabs(true)
    case _ => Interrupted
  }

  /**
   A task that is shutting down stands still in exactly three phases: when it is over, until a
   packet or the end of the connection while it reads the answer to GRAB_JOB, and until the
   handler returns or panics.
   */
  lemma StandsStillIff(mode: GrabMode, w: State)
    requires w.shutdown
    ensures (forall x :: WorkerCore.Step(mode, w, x).phase == w.phase ==> !IsOwn(w.phase, x))
    ensures !Held(w.phase) && !w.phase.Finished? <==> exists x :: IsOwn(w.phase, x)
    ensures w.phase.AwaitReply? ==> forall x ::
      WorkerCore.Step(mode, w, x).phase != w.phase <==> x.Gone? || (x.Arrives? && Encodable(x.packet))
    ensures w.phase.Running? ==> forall x :: WorkerCore.Step(mode, w, x).phase != w.phase <==> x.Ends? || x.Panics?
    ensures w.phase.Finished? ==> forall x :: WorkerCore.Step(mode, w, x).phase == w.phase
  {
    forall x ensures IsOwn(w.phase, x) ==> WorkerCore.Step(mode, w, x).phase != w.phase {
      RankFalls(mode, w, x);
    }
    if !Held(w.phase) && !w.phase.Finished? {
      assert IsOwn(w.phase, OwnNext(w.phase));
    }
    forall x ensures w.phase.AwaitReply? ==>
      (WorkerCore.Step(mode, w, x).phase != w.phase <==> x.Gone? || (x.Arrives? && Encodable(x.packet)))
    {
      if w.phase.AwaitReply? { ReadingMoves(mode, w, x); }
    }
    forall x ensures w.phase.Running? ==> (WorkerCore.Step(mode, w, x).phase != w.phase <==> x.Ends? || x.Panics?) {
      if w.phase.Running? { HandlerMoves(mode, w, x); }
    }
    forall x ensures w.phase.Finished? ==> WorkerCore.Step(mode, w, x).phase == w.phase {
      RankFalls(mode, w, x);
    }
    hide WorkerCore.Step, IsOwn;
  }

  lemma ReadingMoves(mode: GrabMode, w: State, x: Input)
    requires w.phase.AwaitReply?
    ensures WorkerCore.Step(mode, w, x).phase != w.phase <==> x.Gone? || (x.Arrives? && Encodable(x.packet))
  {
    hide Sent, Encodable;
    if x.Arrives? && Encodable(x.packet) && IsAssign(x.packet.ptype) {
      AssignmentsName(x.packet);
      SentIs(w.(log := w.log + [Got(x.packet)], phase := Top), Request(WorkFail, [x.packet.args[0]]), x.ok);
    }
  }

  lemma HandlerMoves(mode: GrabMode, w: State, x: Input)
    requires w.phase.Running?
    ensures WorkerCore.Step(mode, w, x).phase != w.phase <==> x.Ends? || x.Panics?
  {
    hide Sent, Encodable, ReportPacket, ResultPacket;
    if x.Reports? {
      SentIs(w, ReportPacket(x.handle, x.report), x.ok);
    }
  }

  /** A worker sleeps until a packet comes, the connection ends or it is shut down; it reads until the first two. */
  lemma WaitsUntil(mode: GrabMode, w: State, x: Input)
    ensures w.phase.Asleep? ==>
      (WorkerCore.Step(mode, w, x).phase != w.phase <==>
         x.Gone? || (x.Arrives? && Encodable(x.packet)) || (x.Interrupted? && w.shutdown))
    ensures w.phase.AwaitReply? ==>
      (WorkerCore.Step(mode, w, x).phase != w.phase <==> x.Gone? || (x.Arrives? && Encodable(x.packet)))
    ensures x.Gone? && (w.phase.Asleep? || w.phase.AwaitReply?) ==> WorkerCore.Step(mode, w, x).phase == Offline
  {
    if w.phase.AwaitReply? {
      ReadingMoves(mode, w, x);
    }
    hide Encodable, Replied;
  }

  /** Nothing else ends a task: a lost connection, whatever the phase, only sends it back to connecting. */
  lemma {:induction false} EndsOnlyOnDemand(mode: GrabMode, w: State, xs: seq<Input>)
    requires !w.shutdown && !w.phase.Finished?
    ensures Steps(mode, w, xs).phase.Finished? ==> exists x <- xs :: x.ShutsDown? || x.Panics?
    decreases |xs|
  {
    hide WorkerCore.Step;
    if xs != [] {
      assert xs[0] in xs;
      if !xs[0].ShutsDown? && !xs[0].Panics? {
        StaysUp(mode, w, xs[0]);
        EndsOnlyOnDemand(mode, WorkerCore.Step(mode, w, xs[0]), xs[1..]);
      }
    }
  }

  lemma StaysUp(mode: GrabMode, w: State, x: Input)
    requires !w.shutdown && !w.phase.Finished? && !x.ShutsDown? && !x.Panics?
    ensures var v := WorkerCore.Step(mode, w, x); !v.shutdown && !v.phase.Finished?
  {
    ShutdownIsKept(mode, w, x);
    hide Sent, Encodable, Puts, CanDos, CantDos, Through, Lists, Clear;
    if x.Reports? || x.Ends? || x.Grabs? {
      SentIs(w, Says(mode, w, x), x.ok);
      hide ReportPacket, ResultPacket;
    } else if x.Arrives? {
      ArrivalStaysUp(w, x.packet, x.ok);
      hide Arrived;
    }
  }

  lemma ArrivalStaysUp(w: State, p: Packet, ok: bool)
    requires !w.phase.Finished?
    ensures Encodable(p) ==> !Arrived(w, p, ok).phase.Finished?
  {
    hide Sent, Encodable;
    SentIs(w.(log := w.log + [Got(p)], phase := Top), Request(PreSleep, []), ok);
    if Encodable(p) && IsAssign(p.ptype) {
      AssignmentsName(p);
      SentIs(w.(log := w.log + [Got(p)], phase := Top), Request(WorkFail, [p.args[0]]), ok);
    }
  }

  // ---------- A server that keeps the protocol lets it go ----------

  /** A server that answers what it has been sent ends the wait for its answer. */
  lemma {:induction false} ServerLetsGo(mode: GrabMode, w: World) returns (ss: seq<WorkerRuns.Step>)
    requires InStep(w) && w.worker.phase.AwaitReply?
    ensures Legal(mode, w, ss) && (forall s <- ss :: s.Serves? || s.Receives?)
    ensures var w' := After(mode, w, ss);
      && InStep(w') && !w'.worker.phase.AwaitReply? && w'.worker.shutdown == w.worker.shutdown
      && (w.worker.shutdown ==> Rank(w'.worker.phase) < Rank(w.worker.phase))
    decreases |w.toServer|, w.toWorker == []
  {
    if w.toWorker != [] {
      ss := [Receives(true)];
      RunsOne(mode, w, Receives(true));
      StaysInStep(mode, w, Receives(true));
      ReplyMoves(mode, w);
    } else {
      var s := Serves(NothingToDo, false);
      RequestIsOnItsWay(w);
      NothingToDoSuits();
      var w' := Apply(mode, w, s);
      StaysInStep(mode, w, s);
      var rest := ServerLetsGo(mode, w');
      ss := [s] + rest;
      RunsOne(mode, w, s);
      RunsConcat(mode, w, [s], rest);
    }
  }

  const NothingToDo: Packet := Packet(Res, NoJob, [])

  lemma NothingToDoSuits()
    ensures IsGrabReply(NothingToDo)
  {
  }

  lemma RequestIsOnItsWay(w: World)
    requires InStep(w) && w.worker.phase.AwaitReply? && w.toWorker == []
    ensures w.toServer != []
  {
  }

  lemma ReplyMoves(mode: GrabMode, w: World)
    requires InStep(w) && w.worker.phase.AwaitReply? && w.toWorker != []
    ensures var w' := Apply(mode, w, Receives(true));
      && !w'.worker.phase.AwaitReply? && w'.worker.shutdown == w.worker.shutdown
      && (w.worker.shutdown ==> Rank(w'.worker.phase) < Rank(w.worker.phase))
  {
    var x := Arrives(w.toWorker[0], true);
    assert Encodable(w.toWorker[0]);
    ReadingMoves(mode, w.worker, x);
    ArrivalSends(mode, w.worker, w.toWorker[0], true);
    ShutdownIsKept(mode, w.worker, x);
    if w.worker.shutdown {
      RankFalls(mode, w.worker, x);
    }
    hide WorkerCore.Step, Count, Wired, Encodable;
  }

  lemma ShutdownIsKept(mode: GrabMode, w: State, x: Input)
    requires !x.ShutsDown?
    ensures WorkerCore.Step(mode, w, x).shutdown == w.shutdown
  {
    hide Sent, Attempted, Flushed, Arrived;
    if x.Reports? || x.Ends? || x.Grabs? {
      SentIs(w, Says(mode, w, x), x.ok);
    } else if x.Arrives? {
      ArrivalKeepsShutdown(w, x);
    } else {
      BulkKeepsShutdown(w, x);
    }
  }

  lemma ArrivalKeepsShutdown(w: State, x: Input)
    requires x.Arrives?
    ensures Encodable(x.packet) ==> Arrived(w, x.packet, x.ok).shutdown == w.shutdown
  {
    hide Encodable;
  }

  lemma BulkKeepsShutdown(w: State, x: Input)
    ensures x.Attempts? ==> Attempted(w, x.attempt).shutdown == w.shutdown
    ensures x.Begins? ==> Flushed(w, x.sends).shutdown == w.shutdown
  {
    hide Puts, CanDos, CantDos, Through, Lists, Clear;
  }

  /** Steps of the task, of a handler that returns, and of a server that answers. */
  predicate Ordinary(s: WorkerRuns.Step) {
    s.Serves? || s.Receives? || (s.Own? && !s.input.Unregisters? && !s.input.ShutsDown? && !s.input.Gone?)
  }

  /** Once the flag is set, the task's own steps, returning handlers and the server's answers lead to its end. */
  lemma {:induction false} ShutdownFinishes(mode: GrabMode, w: World) returns (ss: seq<WorkerRuns.Step>)
    requires InStep(w) && w.worker.shutdown
    ensures Legal(mode, w, ss) && forall s <- ss :: Ordinary(s)
    ensures After(mode, w, ss).worker.phase.Finished?
    decreases Rank(w.worker.phase)
  {
    hide WorkerCore.Step, InStep, Moved;
    if w.worker.phase.Finished? {
      ss := [];
    } else if w.worker.phase.AwaitReply? {
      var first := ServerLetsGo(mode, w);
      var rest := ShutdownFinishes(mode, After(mode, w, first));
      RunsConcat(mode, w, first, rest);
      ss := first + rest;
    } else {
      var x := if w.worker.phase.Running? then Ends(Failed, true) else OwnNext(w.worker.phase);
      var s := Own(x);
      MovesOn(mode, w.worker, x);
      RankFalls(mode, w.worker, x);
      MovedWorker(mode, w, x);
      StaysInStep(mode, w, s);
      var rest := ShutdownFinishes(mode, Apply(mode, w, s));
      RunsOne(mode, w, s);
      RunsConcat(mode, w, [s], rest);
      ss := [s] + rest;
    }
  }

  lemma MovesOn(mode: GrabMode, w: State, x: Input)
    requires w.shutdown && !w.phase.Finished? && !w.phase.AwaitReply?
    requires x == if w.phase.Running? then Ends(Failed, true) else OwnNext(w.phase)
    ensures WorkerCore.Step(mode, w, x).phase != w.phase
  {
    if w.phase.Running? {
      HandlerMoves(mode, w, x);
    } else {
      RankFalls(mode, w, x);
    }
  }

  lemma MovedWorker(mode: GrabMode, w: World, x: Input)
    ensures Moved(mode, w, x).worker == WorkerCore.Step(mode, w.worker, x)
  {
  }

  /**
   From every state of every run in which the flag is set, with nothing cut off and no outside
   help, the task can reach its end: Worker::shutdown is never waiting for something that no one
   is about to do.
   */
  lemma ShutdownOfARunFinishes(mode: GrabMode, registry: map<Name, Option<nat>>, ss: seq<WorkerRuns.Step>)
    returns (more: seq<WorkerRuns.Step>)
    requires Legal(mode, Start(registry), ss) && After(mode, Start(registry), ss).worker.shutdown
    ensures Legal(mode, Start(registry), ss + more) && forall s <- more :: Ordinary(s)
    ensures After(mode, Start(registry), ss + more).worker.phase.Finished?
  {
    CountNone();
    RunInStep(mode, Start(registry), ss);
    more := ShutdownFinishes(mode, After(mode, Start(registry), ss));
    RunsConcat(mode, Start(registry), ss, more);
  }
}
