/**
 Inputs on which a worker does not do what one would hope for, as runs from its start: an
 assignment that is never answered, a function that stays advertised, and a retraction sent, or
 lost, for a function that was never registered.
 */
module WorkerFailures {
  import opened Wrappers
  import opened Protocol
  import opened WorkerCore
  import opened WorkerRuns
  import Codec

  const JobName: Name := [106, 111, 98]
  const Handle: bytes := [72]
  const Assignment: Packet := Packet(Res, JobAssign, [Handle, JobName, []])
  const OneFunction: map<Name, Option<nat>> := map[JobName := None]

  lemma StepsOne(mode: GrabMode, w: State, x: Input)
    ensures Steps(mode, w, [x]) == WorkerCore.Step(mode, w, x)
  {
    assert [x][1..] == [];
    assert Steps(mode, WorkerCore.Step(mode, w, x), []) == WorkerCore.Step(mode, w, x);
  }

  lemma {:induction false} StepsConcat(mode: GrabMode, w: State, a: seq<Input>, b: seq<Input>)
    ensures Steps(mode, w, a + b) == Steps(mode, Steps(mode, w, a), b)
    decreases |a|
  {
    if a == [] {
      assert a + b == b;
    } else {
      FrontOf(a, b);
      StepsConcat(mode, WorkerCore.Step(mode, w, a[0]), a[1..], b);
    }
  }

  lemma StepsTwo(mode: GrabMode, w: State, x: Input, y: Input)
    ensures Steps(mode, w, [x, y]) == WorkerCore.Step(mode, WorkerCore.Step(mode, w, x), y)
  {
    hide WorkerCore.Step;
    assert [x, y] == [x] + [y];
    StepsConcat(mode, w, [x], [y]);
    StepsOne(mode, w, x);
    StepsOne(mode, WorkerCore.Step(mode, w, x), y);
  }

  // ---------- To a worker that waits for work ----------

  /** A registered function whose CAN_DO has been sent, with nothing queued. */
  const Ready: State :=
    State(OneFunction, false, [], false, Top, true, {}, [Opened(true), Put(Request(CanDo, [JobName]))])

  lemma NamesAreEncodable(name: Name)
    requires |name| <= 100
    ensures Encodable(Request(CanDo, [name])) && Encodable(Request(CantDo, [name]))
  {
  }

  lemma ClearAll(ps: seq<Packet>)
    requires forall p <- ps :: Encodable(p)
    ensures Clear(ps) == |ps|
  {
    if ps != [] {
      ClearAll(ps[1..]);
    }
  }

  lemma ReadyIsReached(mode: GrabMode)
    ensures Steps(mode, Begin(OneFunction), [Attempts(Registers([JobName], 1)), Drains]) == Ready
  {
    var w := Begin(OneFunction);
    var ps := CanDos(OneFunction, [JobName]);
    assert ps == [Request(CanDo, [JobName])];
    NamesAreEncodable(JobName);
    ClearAll(ps);
    assert Lists(OneFunction, [JobName]) by {
      assert |OneFunction| == 1 && OneFunction.Keys == {JobName};
    }
    assert ps[..1] == ps && Puts(ps) == [Put(ps[0])];
    StepsTwo(mode, w, Attempts(Registers([JobName], 1)), Drains);
    assert [] + [Opened(true)] + Puts(ps) == Ready.log;
  }

  /** The flush of an empty queue and a GRAB_JOB. */
  lemma GrabsNext(mode: GrabMode, w: State)
    requires w.phase.Top? && w.alive && !w.shutdown && w.queue == []
    ensures Steps(mode, w, [Begins(0), Grabs(true)])
         == w.(phase := AwaitReply, lagged := false, log := w.log + [Put(Request(mode.GrabType(), []))])
  {
    StepsTwo(mode, w, Begins(0), Grabs(true));
    AlwaysEncodable(mode, Request(PreSleep, []));
    hide Encodable;
    assert CantDos([]) == [] && Puts([]) == [] && w.log + [] == w.log;
    assert CantDos(w.queue)[..0] == [];
  }

  // ---------- Assignments that are never answered ----------

  /** An assignment to a waiting worker that has the function, and then one step of its handler. */
  lemma AssignedNext(w: State)
    requires w.phase.AwaitReply? && JobName in w.registry
    ensures Encodable(Assignment)
    ensures WorkerCore.Step(Plain, w, Arrives(Assignment, true))
         == w.(phase := Running(Handle, JobName), reporters := w.reporters + {Handle}, log := w.log + [Got(Assignment)])
  {
    assert Codec.Join(Assignment.args) == Handle + [0] + Codec.Join([JobName, []]) by {
      assert Assignment.args[1..] == [JobName, []];
    }
    assert Codec.Join([JobName, []]) == JobName + [0] + [] by {
      assert [JobName, []][1..] == [[]];
    }
  }

  /** GRAB_JOB on a connection that owes an answer breaks the rules of the wire. */
  lemma GrabWhileOwing(mode: GrabMode, log: seq<Obs>)
    requires Audit(log).Owes?
    ensures Audit(log + [Put(Request(mode.GrabType(), []))]).Broken?
  {
    AuditSnoc(log, Put(Request(mode.GrabType(), [])));
  }

  /** A result that the codec refuses leaves its job unanswered; the next GRAB_JOB follows. */
  lemma RefusedResultIsNeverAnswered(mode: GrabMode, w: State, r: JobResult)
    requires Honest(w) && w.phase.Running? && w.alive && !w.shutdown && w.queue == []
    requires !Encodable(ResultPacket(w.phase.handle, r))
    ensures var w' := Steps(mode, w, [Ends(r, true)] + [Begins(0), Grabs(true)]);
      && w'.phase.AwaitReply? && w'.alive
      && w'.log == w.log + [Put(Request(mode.GrabType(), []))]
      && Audit(w'.log).Broken?
  {
    StepsConcat(mode, w, [Ends(r, true)], [Begins(0), Grabs(true)]);
    StepsOne(mode, w, Ends(r, true));
    var v := WorkerCore.Step(mode, w, Ends(r, true));
    assert v == w.(phase := Top);
    GrabsNext(mode, v);
    GrabWhileOwing(mode, w.log);
  }

  /** 64 MiB of zeros: with its handle too large for a packet. */
  function Big(): bytes {
    seq(Codec.DEFAULT_MAX_PAYLOAD_SIZE, _ => 0)
  }

  const ToJob: seq<Input> :=
    [Attempts(Registers([JobName], 1)), Drains] + [Begins(0), Grabs(true)] + [Arrives(Assignment, true)]

  /** The handler of the job is running. */
  const Busy: State :=
    Ready.(phase := Running(Handle, JobName), reporters := {Handle},
           log := Ready.log + [Put(Request(GrabJob, []))] + [Got(Assignment)])

  lemma BusyIsReached()
    ensures Steps(Plain, Begin(OneFunction), ToJob) == Busy && Audit(Busy.log) == Owes(Handle)
  {
    var w := Begin(OneFunction);
    var a, b, c := [Attempts(Registers([JobName], 1)), Drains], [Begins(0), Grabs(true)], [Arrives(Assignment, true)];
    StepsConcat(Plain, w, a + b, c);
    StepsConcat(Plain, w, a, b);
    ReadyIsReached(Plain);
    GrabsNext(Plain, Ready);
    var v := Steps(Plain, Ready, b);
    StepsOne(Plain, v, Arrives(Assignment, true));
    AssignedNext(v);
    assert {} + {Handle} == {Handle};
    hide Encodable, Steps, WorkerCore.Step, Audit, Entry;
    BusyOwes();
  }

  lemma BusyOwes()
    ensures Audit(Busy.log) == Owes(Handle)
  {
    ReadyIsFree();
    hide Audit;
    AuditSnoc(Ready.log, Put(Request(GrabJob, [])));
    AuditSnoc(Ready.log + [Put(Request(GrabJob, []))], Got(Assignment));
  }

  lemma ReadyIsFree()
    ensures Audit(Ready.log).Joining?
  {
    assert Audit([]).Idle?;
    hide Audit;
    var start: seq<Obs> := [Opened(true)];
    AuditSnoc([], Opened(true));
    assert [] + start == start;
    AuditSnoc(start, Put(Request(CanDo, [JobName])));
    assert start + [Put(Request(CanDo, [JobName]))] == Ready.log;
  }

  /** A run, from the start, in which a result of 64 MiB is never sent and the next job is asked for. */
  lemma RefusedResultIsReachable()
    ensures var w := Steps(Plain, Begin(OneFunction), ToJob + ([Ends(Done(Big()), true)] + [Begins(0), Grabs(true)]));
      && w.phase.AwaitReply? && w.alive && Audit(w.log).Broken?
      && w.log == Busy.log + [Put(Request(GrabJob, []))]
  {
    BusyIsReached();
    StepsConcat(Plain, Begin(OneFunction), ToJob, [Ends(Done(Big()), true)] + [Begins(0), Grabs(true)]);
    assert ResultPacket(Handle, Done(Big())).args == [Handle, Big()];
    assert Codec.Join([Handle, Big()]) == Handle + [0] + Big() by {
      assert [Handle, Big()][1..] == [Big()];
    }
    RefusedResultIsNeverAnswered(Plain, Busy, Done(Big()));
  }

  const NoJobPacket: Packet := Packet(Res, NoJob, [])

  /** A run, with a server that breaks the rules, in which a sleeping worker swallows an assignment. */
  lemma SwallowedAssignmentIsReachable()
    ensures var w := Steps(Plain, Ready, [Begins(0), Grabs(true)]
                             + [Arrives(NoJobPacket, true), Arrives(Assignment, true)] + [Begins(0), Grabs(true)]);
      && w.phase.AwaitReply? && w.alive && Audit(w.log).Broken?
      && w.log == Ready.log + [Put(Request(GrabJob, []))] + [Got(NoJobPacket)] + [Put(Request(PreSleep, []))]
                  + [Got(Assignment)] + [Put(Request(GrabJob, []))]
  {
    var a, b := [Begins(0), Grabs(true)], [Arrives(NoJobPacket, true), Arrives(Assignment, true)];
    StepsConcat(Plain, Ready, a + b, a);
    StepsConcat(Plain, Ready, a, b);
    GrabsNext(Plain, Ready);
    var u := Steps(Plain, Ready, a);
    AssignedNext(u);
    AlwaysEncodable(Plain, NoJobPacket);
    assert Encodable(NoJobPacket);
    hide Encodable;
    StepsTwo(Plain, u, Arrives(NoJobPacket, true), Arrives(Assignment, true));
    var v := Steps(Plain, u, b);
    assert v == u.(phase := Top, log := u.log + [Got(NoJobPacket)] + [Put(Request(PreSleep, []))] + [Got(Assignment)]);
    GrabsNext(Plain, v);
    SwallowedOwes(u.log);
    GrabWhileOwing(Plain, v.log);
  }

  lemma SwallowedOwes(log: seq<Obs>)
    requires log == Ready.log + [Put(Request(GrabJob, []))]
    ensures Audit(log + [Got(NoJobPacket)] + [Put(Request(PreSleep, []))] + [Got(Assignment)]) == Owes(Handle)
  {
    ReadyIsFree();
    AuditSnoc(Ready.log, Put(Request(GrabJob, [])));
    AuditSnoc(log, Got(NoJobPacket));
    AuditSnoc(log + [Got(NoJobPacket)], Put(Request(PreSleep, [])));
    AuditSnoc(log + [Got(NoJobPacket)] + [Put(Request(PreSleep, []))], Got(Assignment));
  }

  const Answer: Packet := ResultPacket(Handle, Done([]))
  const Late: Packet := ReportPacket(Handle, Chunk([]))

  lemma LateFits()
    ensures Encodable(Answer) && Encodable(Late)
  {
    assert Codec.Join([Handle, []]) == Handle + [0] + [] by {
      assert [Handle, []][1..] == [[]];
    }
  }

  lemma LateBreaks(log: seq<Obs>)
    requires Audit(log) == Owes(Handle)
    ensures Audit(log + [Put(Answer)] + [Put(Late)]).Broken?
  {
    AuditSnoc(log, Put(Answer));
    AuditSnoc(log + [Put(Answer)], Put(Late));
  }

  /** A report for a job that is over, through a clone of its reporter that its handler left behind. */
  lemma StrayReportIsReachable()
    ensures var w := Steps(Plain, Begin(OneFunction), ToJob + [Ends(Done([]), true), Reports(Handle, Chunk([]), true)]);
      w.alive && Audit(w.log).Broken? && w.log == Busy.log + [Put(Answer)] + [Put(Late)]
  {
    BusyIsReached();
    LateFits();
    LateBreaks(Busy.log);
    StepsConcat(Plain, Begin(OneFunction), ToJob, [Ends(Done([]), true), Reports(Handle, Chunk([]), true)]);
    StepsTwo(Plain, Busy, Ends(Done([]), true), Reports(Handle, Chunk([]), true));
    hide Encodable, Audit, Steps, ToJob;
    var v := WorkerCore.Step(Plain, Busy, Ends(Done([]), true));
    assert v == Busy.(phase := Top, log := Busy.log + [Put(Answer)]);
  }

  // ---------- Retractions ----------

  /** Unregistering a function that was never registered sends CANT_DO for it. */
  lemma StrangerIsRetracted(mode: GrabMode, w: State, f: Name)
    requires w.phase.Top? && w.alive && !w.shutdown && w.queue == [] && f !in w.registry
    requires Encodable(Request(CantDo, [f]))
    ensures var w' := Steps(mode, w, [Unregisters(f), Begins(1)]);
      w'.phase.Grabbing? && w'.registry == w.registry && w'.log == w.log + [Put(Request(CantDo, [f]))]
  {
    StepsTwo(mode, w, Unregisters(f), Begins(1));
    hide Encodable;
    var v := WorkerCore.Step(mode, w, Unregisters(f));
    var ps := CantDos([f]);
    assert v.queue == [f];
    assert ps == [Request(CantDo, [f])];
    ClearAll(ps);
    assert ps[..1] == ps && Puts(ps) == [Put(ps[0])];
  }

  const Stranger: Name := [120]

  /** A run, from the start, that ends with CANT_DO for a function never registered. */
  lemma StrangerIsRetractedIsReachable(mode: GrabMode)
    ensures var w := Steps(mode, Begin(OneFunction),
                           [Attempts(Registers([JobName], 1)), Drains] + [Unregisters(Stranger), Begins(1)]);
      Stranger !in OneFunction && w.log == Ready.log + [Put(Request(CantDo, [Stranger]))]
  {
    StepsConcat(mode, Begin(OneFunction), [Attempts(Registers([JobName], 1)), Drains],
                [Unregisters(Stranger), Begins(1)]);
    ReadyIsReached(mode);
    NamesAreEncodable(Stranger);
    assert Stranger[0] != JobName[0];
    StrangerIsRetracted(mode, Ready, Stranger);
  }

  // ---------- Retractions that are lost ----------

  /** A connection that has just discarded old notifications; the server will know of `functions`. */
  predicate Settled(w: World, functions: set<Name>) {
    && w.worker.phase.Top? && !w.worker.lagged && !w.worker.shutdown && w.worker.alive
    && AbilitiesKept(w) && Advertised(w) == functions
  }

  /** The first two steps of a connection: CAN_DO for every function, and the discard. */
  function Joining(order: seq<Name>): seq<WorkerRuns.Step> {
    [Own(Attempts(Registers(order, |order|)))] + [Own(Drains)]
  }

  lemma Joins(mode: GrabMode, registry: map<Name, Option<nat>>, order: seq<Name>)
    requires Lists(registry, order) && forall p <- CanDos(registry, order) :: Encodable(p)
    ensures Legal(mode, Start(registry), Joining(order))
    ensures var w := After(mode, Start(registry), Joining(order));
      Settled(w, registry.Keys) && w.worker.queue == [] && w.worker.registry == registry
  {
    var w, s, d := Start(registry), Own(Attempts(Registers(order, |order|))), Own(Drains);
    JoinsFirst(mode, registry, order);
    var u := Apply(mode, w, s);
    JoinsThen(mode, u, registry);
    hide Apply, Settled, Enabled;
    RunsOne(mode, w, s);
    RunsOne(mode, u, d);
    RunsConcat(mode, w, [s], [d]);
  }

  lemma JoinsFirst(mode: GrabMode, registry: map<Name, Option<nat>>, order: seq<Name>)
    requires Lists(registry, order) && forall p <- CanDos(registry, order) :: Encodable(p)
    ensures var u := Apply(mode, Start(registry), Own(Attempts(Registers(order, |order|))));
      && u.worker.phase.Draining? && !u.worker.lagged && !u.worker.shutdown && u.worker.alive
      && u.worker.queue == [] && u.worker.registry == registry
      && AbilitiesKept(u) && Advertised(u) == registry.Keys
  {
    var w, a := Start(registry), Registers(order, |order|);
    AttemptSucceeds(mode, w.worker, a);
    hide WorkerCore.Step, Moved, AbleAfter, Encodable;
    RegistersMoved(mode, w, a);
    AbleCanDos({}, registry, order);
    RegisteringKeepsAbilities(mode, w, a);
  }

  lemma AttemptSucceeds(mode: GrabMode, v: State, a: Attempt)
    requires v.phase.Offline? && !v.shutdown && a.Registers? && Lists(v.registry, a.order) && a.sends >= |a.order|
    requires forall p <- CanDos(v.registry, a.order) :: Encodable(p)
    ensures var v' := WorkerCore.Step(mode, v, Attempts(a));
      v' == v.(log := v'.log, alive := true, phase := Draining, reporters := {})
  {
    ClearAll(CanDos(v.registry, a.order));
    hide Encodable, CanDos, Clear;
  }

  lemma JoinsThen(mode: GrabMode, u: World, registry: map<Name, Option<nat>>)
    requires u.worker.phase.Draining? && !u.worker.lagged && !u.worker.shutdown && u.worker.alive
    requires u.worker.queue == [] && AbilitiesKept(u) && Advertised(u) == registry.Keys
    ensures var w := Apply(mode, u, Own(Drains));
      Settled(w, registry.Keys) && w.worker.queue == [] && w.worker.registry == u.worker.registry
  {
    hide AbleAfter, Wired;
    WiredOne(u.toServer, Opened(true));
    assert WorkerCore.Step(mode, u.worker, Drains).log == u.worker.log + [];
    MovedBy(mode, u, Drains, []);
    DrainingKeepsAbilities(mode, u);
  }

  function Unregistering(names: seq<Name>): seq<WorkerRuns.Step> {
    if names == [] then [] else [Own(Unregisters(names[0]))] + Unregistering(names[1..])
  }

  lemma UnregistersOne(mode: GrabMode, w: World, functions: set<Name>, f: Name)
    requires Settled(w, functions) && |w.worker.queue| < CHANNEL_CAPACITY
    ensures var w' := Moved(mode, w, Unregisters(f));
      && Settled(w', functions)
      && w'.worker.queue == w.worker.queue + [f] && w'.worker.registry == w.worker.registry - {f}
  {
    ForgetsIff(mode, w, f);
    hide AbilitiesKept, Wired, AbleAfter;
    assert w.worker.log + [] == w.worker.log;
    WiredOne(w.toServer, Opened(true));
    MovedBy(mode, w, Unregisters(f), []);
  }

  /** Up to sixteen notifications queue up before the loop flushes. */
  lemma {:induction false} Unregisterings(mode: GrabMode, w: World, functions: set<Name>, names: seq<Name>)
    requires Settled(w, functions) && |w.worker.queue| + |names| <= CHANNEL_CAPACITY
    ensures Legal(mode, w, Unregistering(names))
    ensures var w' := After(mode, w, Unregistering(names));
      Settled(w', functions) && w'.worker.queue == w.worker.queue + names
    decreases |names|
  {
    hide Settled, Moved;
    if names != [] {
      UnregistersOne(mode, w, functions, names[0]);
      var u := Moved(mode, w, Unregisters(names[0]));
      Unregisterings(mode, u, functions, names[1..]);
      assert names == [names[0]] + names[1..];
      Assoc(w.worker.queue, [names[0]], names[1..]);
      assert Unregistering(names)[0] == Own(Unregisters(names[0]));
      assert Unregistering(names)[1..] == Unregistering(names[1..]);
    }
  }

  function Nth(i: nat): (f: Name)
    requires i < 0x100
    ensures |f| == 1 && f[0] as int == i
  {
    [i as byte]
  }

  /** Seventeen functions, one more than the channel holds. */
  const Seventeen: seq<Name> := seq(CHANNEL_CAPACITY + 1, i requires 0 <= i <= CHANNEL_CAPACITY => Nth(i))

  const ManyFunctions: map<Name, Option<nat>> := map f | f in Seventeen :: None

  lemma Listed()
    ensures Lists(ManyFunctions, Seventeen)
    ensures forall p <- CanDos(ManyFunctions, Seventeen) :: Encodable(p)
  {
    forall i, j | 0 <= i < j < |Seventeen| ensures Seventeen[i] != Seventeen[j] {
      assert Seventeen[i][0] as int == i && Seventeen[j][0] as int == j;
    }
    DistinctCount(Seventeen);
    assert ManyFunctions.Keys == NamesIn(Seventeen);
    assert |ManyFunctions| == |ManyFunctions.Keys|;
    forall i | 0 <= i < |Seventeen| ensures Encodable(Request(CanDo, [Seventeen[i]])) {
      NamesAreEncodable(Seventeen[i]);
    }
  }

  lemma {:induction false} DistinctCount(names: seq<Name>)
    requires forall i, j :: 0 <= i < j < |names| ==> names[i] != names[j]
    ensures |NamesIn(names)| == |names|
  {
    if names != [] {
      var n := |names| - 1;
      DistinctCount(names[..n]);
      NamesSnoc(names);
      assert names[n] !in NamesIn(names[..n]);
    }
  }

  /**
   A run, from the start: sixteen of seventeen functions are unregistered before the loop flushes,
   and then one more name but the first, whether it was ever registered or not. The first function
   stays advertised, with nothing queued to retract it.
   */
  lemma OverflowIsReachable(mode: GrabMode, last: Name)
    requires last != Nth(0)
    ensures var first := Seventeen[..CHANNEL_CAPACITY];
      var ss := Joining(Seventeen) + Unregistering(first) + [Own(Unregisters(last))];
      && Legal(mode, Start(ManyFunctions), ss)
      && var w := After(mode, Start(ManyFunctions), ss);
        w.worker.phase.Top? && Nth(0) in Advertised(w) && Nth(0) !in w.worker.registry && Nth(0) !in w.worker.queue
  {
    var first := Seventeen[..CHANNEL_CAPACITY];
    Listed();
    Joins(mode, ManyFunctions, Seventeen);
    var u := After(mode, Start(ManyFunctions), Joining(Seventeen));
    Unregisterings(mode, u, ManyFunctions.Keys, first);
    var v := After(mode, u, Unregistering(first));
    RunsConcat(mode, Start(ManyFunctions), Joining(Seventeen), Unregistering(first));
    FirstIsAlone(v.worker.queue);
    assert [] + first == first;
    OverflowLoses(mode, v, last, 0);
    RunsOne(mode, v, Own(Unregisters(last)));
    RunsConcat(mode, Start(ManyFunctions), Joining(Seventeen) + Unregistering(first), [Own(Unregisters(last))]);
  }

  lemma FirstIsAlone(q: seq<Name>)
    requires [] + Seventeen[..CHANNEL_CAPACITY] == q
    ensures |q| == CHANNEL_CAPACITY && q[0] == Nth(0) && Nth(0) !in q[1..] && Nth(0) in ManyFunctions
  {
    forall i | 1 <= i < |q| ensures q[i] != Nth(0) {
      assert q[i] == Seventeen[i];
    }
    assert Seventeen[0] == Nth(0) && Seventeen[0] in Seventeen;
  }

  /** A run, from the start, into the window between CAN_DO and the discard. */
  lemma DrainRaceIsReachable(mode: GrabMode)
    ensures var ss := [Own(Attempts(Registers([JobName], 1)))] + ([Own(Unregisters(JobName))] + [Own(Drains)]);
      && Legal(mode, Start(OneFunction), ss)
      && var w := After(mode, Start(OneFunction), ss);
        w.worker.phase.Top? && JobName in Advertised(w) && JobName !in w.worker.registry && w.worker.queue == []
  {
    var w, s := Start(OneFunction), Own(Attempts(Registers([JobName], 1)));
    OneListed();
    JoinsFirst(mode, OneFunction, [JobName]);
    var u := Apply(mode, w, s);
    DrainRace(mode, u, JobName);
    hide Moved, AbilitiesKept, Advertised, Encodable;
    var t := Apply(mode, u, Own(Unregisters(JobName)));
    RunsOne(mode, w, s);
    RunsOne(mode, u, Own(Unregisters(JobName)));
    RunsOne(mode, t, Own(Drains));
    RunsConcat(mode, u, [Own(Unregisters(JobName))], [Own(Drains)]);
    RunsConcat(mode, w, [s], [Own(Unregisters(JobName))] + [Own(Drains)]);
  }

  lemma OneListed()
    ensures Lists(OneFunction, [JobName])
    ensures forall p <- CanDos(OneFunction, [JobName]) :: Encodable(p)
  {
    NamesAreEncodable(JobName);
    assert |OneFunction| == 1 && OneFunction.Keys == {JobName};
  }
}
