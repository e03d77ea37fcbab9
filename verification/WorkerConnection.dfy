/**
 The grab loop of a worker connection (src/worker/mod.rs) and the reporter of a running job
 (src/worker/job.rs) in place: what the loop, the reporter and the worker's handle share are
 objects, and every run of the loop is shown to be a run of the machine in WorkerCore.
 */
module WorkerConnection {
  import opened Wrappers
  import opened Protocol
  import opened Decimal
  import opened WorkerCore

  /** The connection shared by the loop and the reporters of its jobs. */
  class Wire {
    var log: seq<Obs>
    var alive: bool

    constructor ()
      ensures log == [] && alive
    {
      log, alive := [], true;
    }

    /** The codec refuses a packet before anything is written; a write that fails ends the connection. */
    method Send(p: Packet, ok: bool) returns (sent: bool)
      modifies this
      ensures sent == (Encodable(p) && ok && old(alive))
      ensures alive == (old(alive) && (ok || !Encodable(p)))
      ensures log == if sent then old(log) + [Put(p)] else old(log)
    {
      if !Encodable(p) {
        return false;
      }
      alive := alive && ok;
      if alive {
        log := log + [Put(p)];
      }
      return alive;
    }

    method Open()
      modifies this
      ensures alive && log == old(log) + [Opened(old(alive))]
    {
      log, alive := log + [Opened(alive)], true;
    }
  }

  datatype Received = Notice(func: Name) | Lagged | Empty

  /** A receiver of the broadcast channel of unregister notifications. */
  class Notices {
    var queue: seq<Name>
    var lagged: bool

    constructor ()
      ensures queue == [] && !lagged
    {
      queue, lagged := [], false;
    }

    method Push(f: Name)
      modifies this
      ensures queue == (if |old(queue)| < CHANNEL_CAPACITY then old(queue) else old(queue)[1..]) + [f]
      ensures lagged == (old(lagged) || |old(queue)| >= CHANNEL_CAPACITY)
    {
      if |queue| >= CHANNEL_CAPACITY {
        queue, lagged := queue[1..], true;
      }
      queue := queue + [f];
    }

    method TryRecv() returns (r: Received)
      modifies this
      ensures !lagged
      ensures r.Lagged? <==> old(lagged)
      ensures r.Empty? <==> !old(lagged) && old(queue) == []
      ensures queue == if r.Notice? then old(queue)[1..] else old(queue)
      ensures r.Notice? ==> r.func == old(queue)[0]
    {
      if lagged {
        lagged, r := false, Lagged;
      } else if queue == [] {
        r := Empty;
      } else {
        r, queue := Notice(queue[0]), queue[1..];
      }
    }
  }

  /** What a handler holds while it runs. */
  class Reporter {
    const handle: bytes
    const wire: Wire

    constructor (handle: bytes, wire: Wire)
      ensures this.handle == handle && this.wire == wire
    {
      this.handle, this.wire := handle, wire;
    }

    method ReportStatus(numerator: nat, denominator: nat, ok: bool) returns (sent: bool)
      modifies wire
      ensures sent == (Encodable(ReportPacket(handle, Progress(numerator, denominator))) && ok && old(wire.alive))
      ensures var p := ReportPacket(handle, Progress(numerator, denominator));
        && wire.alive == (old(wire.alive) && (ok || !Encodable(p)))
        && wire.log == old(wire.log) + if sent then [Put(p)] else []
    {
      sent := wire.Send(Request(WorkStatus, [handle, Format(numerator), Format(denominator)]), ok);
    }

    method SendData(data: bytes, ok: bool) returns (sent: bool)
      modifies wire
      ensures sent == (Encodable(ReportPacket(handle, Chunk(data))) && ok && old(wire.alive))
      ensures wire.alive == (old(wire.alive) && (ok || !Encodable(ReportPacket(handle, Chunk(data)))))
      ensures wire.log == old(wire.log) + if sent then [Put(ReportPacket(handle, Chunk(data)))] else []
    {
      sent := wire.Send(Request(WorkData, [handle, data]), ok);
    }

    method Warn(data: bytes, ok: bool) returns (sent: bool)
      modifies wire
      ensures sent == (Encodable(ReportPacket(handle, Warned(data))) && ok && old(wire.alive))
      ensures wire.alive == (old(wire.alive) && (ok || !Encodable(ReportPacket(handle, Warned(data)))))
      ensures wire.log == old(wire.log) + if sent then [Put(ReportPacket(handle, Warned(data)))] else []
    {
      sent := wire.Send(Request(WorkWarning, [handle, data]), ok);
    }
  }

  lemma PutsSnoc(ps: seq<Packet>, p: Packet)
    ensures Puts(ps + [p]) == Puts(ps) + [Put(p)]
  {
  }

  lemma PutsNext(ps: seq<Packet>, i: nat)
    requires i < |ps|
    ensures Puts(ps[..i + 1]) == Puts(ps[..i]) + [Put(ps[i])]
  {
    PutsSnoc(ps[..i], ps[i]);
    assert ps[..i + 1] == ps[..i] + [ps[i]];
  }

  lemma NothingPut(ps: seq<Packet>)
    ensures Puts(ps[..0]) == [] && ps[..|ps|] == ps
  {
  }

  /** Where a flush that has sent i notifications ends: with the queue, or at one that does not get through. */
  lemma FlushEnds(v: State, sends: nat, i: nat)
    requires i <= |v.queue| && i <= Clear(CantDos(v.queue)) && (i > 0 ==> v.alive && i <= sends)
    ensures var ps, u := CantDos(v.queue), Flushed(v, sends);
      && (i == |v.queue| ==>
            u.log == v.log + Puts(ps[..i]) && u.alive == v.alive && u.queue == [] && !u.lagged && u.phase.Grabbing?)
      && (i < |v.queue| && !(Encodable(ps[i]) && i < sends && v.alive) ==>
            && u.log == v.log + Puts(ps[..i]) && u.alive == (v.alive && !Encodable(ps[i]))
            && u.queue == v.queue[i + 1..] && !u.lagged && !u.phase.Grabbing?)
  {
    hide Encodable, Puts, Clear;
    if i < |v.queue| {
      ClearIs(CantDos(v.queue), i);
    }
  }

  class GrabLoop {
    const mode: GrabMode
    const wire: Wire
    const notices: Notices
    var registry: map<Name, Option<nat>>
    var shutdown: bool
    var phase: Phase
    /** The reporters that jobs of this connection were given, any of which may have been cloned and kept. */
    var reporters: map<bytes, Reporter>

    ghost predicate Valid()
      reads this`reporters
    {
      forall h <- reporters :: reporters[h].handle == h && reporters[h].wire == wire
    }

    constructor (mode: GrabMode, registry: map<Name, Option<nat>>)
      ensures Valid() && View() == Begin(registry) && this.mode == mode
      ensures fresh(wire) && fresh(notices)
    {
      var wire := new Wire();
      var notices := new Notices();
      this.mode, this.wire, this.notices := mode, wire, notices;
      this.registry, this.shutdown, this.phase, this.reporters := registry, false, Offline, map[];
    }

    ghost function View(): State
      reads this, wire, notices
    {
      State(registry, shutdown, notices.queue, notices.lagged, phase, wire.alive, reporters.Keys, wire.log)
    }

    /** The worker's handle. */
    method Unregister(f: Name)
      modifies this`registry, notices
      ensures View() == Step(mode, old(View()), Unregisters(f))
    {
      registry := registry - {f};
      notices.Push(f);
    }

    method ShutDown()
      modifies this`shutdown
      ensures View() == Step(mode, old(View()), ShutsDown)
    {
      shutdown := true;
    }

    /**
     CAN_DO for each function of an iteration of the registry, up to the first that the codec
     refuses or whose write fails; `sends` writes get through.
     */
    method RegisterFunctions(order: seq<Name>, sends: nat) returns (ok: bool)
      requires wire.alive && forall f <- order :: f in registry
      modifies wire
      ensures var ps := CanDos(registry, order);
        var n := Through(ps, true, sends);
        && wire.log == old(wire.log) + Puts(ps[..n])
        && ok == (n == |ps|)
        && wire.alive == (ok || n == Clear(ps))
    {
      hide Puts, Clear;
      ghost var ps := CanDos(registry, order);
      NothingPut(ps);
      var i := 0;
      while i < |order|
        invariant 0 <= i <= |order| && wire.alive && i <= Clear(ps) && i <= sends
        invariant wire.log == old(wire.log) + Puts(ps[..i])
      {
        var name := order[i];
        var packet := match registry[name]
          case Some(secs) => Request(CanDoTimeout, [name, Format(secs)])
          case None => Request(CanDo, [name]);
        ClearIs(ps, i);
        PutsNext(ps, i);
        var sent := wire.Send(packet, i < sends);
        if !sent {
          return false;
        }
        i := i + 1;
      }
      return true;
    }

    method Attempt(a: Attempt)
      requires Valid() && phase == Offline
      modifies this`phase, this`reporters, wire
      ensures Valid() && View() == Attempted(old(View()), a)
    {
      if shutdown {
        phase := Finished;
      } else if !a.Refused? && Lists(registry, a.order) {
        wire.Open();
        reporters := map[];
        var ok := RegisterFunctions(a.order, a.sends);
        if ok {
          phase := Draining;
        }
      }
    }

    /** Discards what was queued before the functions were registered. */
    method DiscardOld()
      modifies this`phase, notices
      ensures View() == Drained(old(View())).(phase := Top)
    {
      var more := true;
      while more
        invariant more ==> notices.lagged == old(notices.lagged)
        invariant old(notices.lagged) ==> notices.queue == old(notices.queue)
        invariant !more ==> !notices.lagged && (!old(notices.lagged) ==> notices.queue == [])
        decreases more, |notices.queue|
      {
        var r := notices.TryRecv();
        more := r.Notice?;
      }
      phase := Top;
    }

    /** CANT_DO for everything queued; false once one is refused or a write fails. */
    method FlushUnregistrations(sends: nat) returns (ok: bool)
      modifies wire, notices
      ensures var v := Flushed(old(View()), sends);
        && wire.log == v.log && wire.alive == v.alive
        && notices.queue == v.queue && notices.lagged == v.lagged
        && ok == v.phase.Grabbing?
    {
      ghost var v, all, ps, log := View(), notices.queue, CantDos(notices.queue), wire.log;
      NothingPut(ps);
      var i := 0;
      hide Puts, Clear, Encodable, Flushed, Through, CantDos;
      while true
        invariant 0 <= i <= |all| && notices.queue == all[i..] && i <= Clear(ps)
        invariant wire.alive == v.alive
        invariant i > 0 ==> !notices.lagged && v.alive && i <= sends
        invariant wire.log == log + Puts(ps[..i])
        decreases |notices.queue|, notices.lagged
      {
        FlushEnds(v, sends, i);
        var r := notices.TryRecv();
        if r.Notice? {
          assert notices.queue == all[i..][1..] && r.func == all[i..][0];
          TailOf(all, i);
          ClearIs(ps, i);
          PutsNext(ps, i);
          var sent := wire.Send(Request(CantDo, [r.func]), i < sends);
          if !sent {
            return false;
          }
          Assoc(log, Puts(ps[..i]), [Put(ps[i])]);
          i := i + 1;
        } else if r.Empty? {
          return true;
        }
      }
    }

    method Grab(ok: bool)
      requires phase == Grabbing
      modifies this`phase, wire
      ensures View() == Step(mode, old(View()), Grabs(ok))
    {
      AlwaysEncodable(mode, Request(PreSleep, []));
      var sent := wire.Send(Request(mode.GrabType(), []), ok);
      phase := if sent then AwaitReply else Offline;
    }

    /** Up to the call of the handler; a job of no registered function is failed back. */
    method DispatchJob(p: Packet, ok: bool) returns (job: Option<Job>)
      requires Valid() && IsAssign(p.ptype) && Encodable(p) && phase == AwaitReply
      modifies this`phase, this`reporters, wire
      ensures Valid()
      ensures job == if p.args[1] in registry then Some(JobOf(p)) else None
      ensures p.args[1] in registry ==>
        && phase == Running(p.args[0], p.args[1]) && reporters.Keys == old(reporters.Keys) + {p.args[0]}
        && wire.log == old(wire.log) && wire.alive == old(wire.alive)
      ensures p.args[1] !in registry ==>
        && phase == Top && reporters == old(reporters) && wire.alive == (ok && old(wire.alive))
        && wire.log == old(wire.log) + if wire.alive then [Put(Request(WorkFail, [p.args[0]]))] else []
    {
      var handle, func := p.args[0], p.args[1];
      var unique, reducer, payload := None, None, p.args[2];
      if p.ptype == JobAssignAll {
        unique, reducer, payload := Some(p.args[2]), Some(p.args[3]), p.args[4];
      } else if p.ptype == JobAssignUniq {
        unique, payload := Some(p.args[2]), p.args[3];
      }
      if func in registry {
        phase := Running(handle, func);
        var reporter := new Reporter(handle, wire);
        reporters := reporters[handle := reporter];
        job := Some(Job(handle, func, unique, reducer, payload));
      } else {
        job := None;
        AlwaysEncodable(mode, p);
        var _ := wire.Send(Request(WorkFail, [handle]), ok);
        phase := Top;
      }
    }

    /** The answer to GRAB_JOB. */
    method TakeReply(p: Packet, ok: bool)
      requires Valid() && phase == AwaitReply && Encodable(p)
      modifies this`phase, this`reporters, wire
      ensures Valid() && View() == Replied(old(View()), p, ok)
    {
      AlwaysEncodable(mode, p);
      hide Format, CanDoPacket, Step, JobOf;
      wire.log := wire.log + [Got(p)];
      if IsAssign(p.ptype) {
        AssignmentsName(p);
        hide Encodable;
        var _ := DispatchJob(p, ok);
      } else if p.ptype == NoJob {
        var sent := wire.Send(Request(PreSleep, []), ok);
        phase := if sent then Asleep else Offline;
      } else {
        phase := Top;
      }
    }

    /** Anything wakes a sleeping worker. */
    method WakeUp(p: Packet)
      requires phase == Asleep && Encodable(p)
      modifies this`phase, wire
      ensures forall ok :: View() == Step(mode, old(View()), Arrives(p, ok))
    {
      wire.log := wire.log + [Got(p)];
      phase := Top;
    }

    /** A reporter, or a clone of one, is used while the loop does not hold the connection. */
    method Report(handle: bytes, r: WorkerCore.Report, ok: bool)
      requires Valid() && Speaks(View(), handle)
      modifies wire
      ensures View() == Step(mode, old(View()), Reports(handle, r, ok))
    {
      hide Encodable;
      var reporter := reporters[handle];
      match r {
        case Progress(n, d) => var _ := reporter.ReportStatus(n, d, ok);
        case Chunk(data) => var _ := reporter.SendData(data, ok);
        case Warned(data) => var _ := reporter.Warn(data, ok);
      }
    }

    /** The handler has returned. */
    method Finish(r: JobResult, ok: bool)
      requires phase.Running?
      modifies this`phase, wire
      ensures View() == Step(mode, old(View()), Ends(r, ok))
    {
      hide Encodable;
      var response := match r
        case Done(payload) => Request(WorkComplete, [phase.handle, payload])
        case Failed => Request(WorkFail, [phase.handle])
        case Excepted(payload) => Request(WorkException, [phase.handle, payload]);
      var _ := wire.Send(response, ok);
      phase := Top;
    }

    /** From one suspension point to the next. */
    method Turn(x: Input)
      requires Valid()
      modifies this, wire, notices
      ensures Valid() && View() == Step(mode, old(View()), x)
    {
      hide Encodable;
      match x {
        case Unregisters(f) => Unregister(f);
        case ShutsDown => ShutDown();
        case Attempts(a) => if phase == Offline { Attempt(a); }
        case Drains => if phase == Draining { DiscardOld(); }
        case Begins(sends) =>
          if phase == Top {
            if shutdown {
              phase := Finished;
            } else {
              var ok := FlushUnregistrations(sends);
              phase := if ok then Grabbing else Offline;
            }
          }
        case Grabs(ok) => if phase == Grabbing { Grab(ok); }
        case Arrives(p, ok) =>
          if Encodable(p) {
            if phase == AwaitReply {
              TakeReply(p, ok);
            } else if phase == Asleep {
              WakeUp(p);
            }
          }
        case Gone => if phase == AwaitReply || phase == Asleep { phase := Offline; }
        case Reports(h, r, ok) =>
          if h in reporters && (phase.Running? || phase == Top || phase == Grabbing) {
            Report(h, r, ok);
          }
        case Ends(r, ok) => if phase.Running? { Finish(r, ok); }
        case Panics => if phase.Running? { phase := Finished; }
        case Interrupted => if shutdown && (phase == Asleep || phase == Offline) { phase := Finished; }
      }
    }

    /** The task of a connection, whatever happens around it. */
    method RunWorkerConnection(xs: seq<Input>)
      requires Valid()
      modifies this, wire, notices
      ensures Valid() && View() == Steps(mode, old(View()), xs)
    {
      var i := 0;
      while i < |xs|
        invariant 0 <= i <= |xs| && Valid()
        invariant Steps(mode, old(View()), xs) == Steps(mode, View(), xs[i..])
      {
        Turn(xs[i]);
        i := i + 1;
      }
    }
  }
}
