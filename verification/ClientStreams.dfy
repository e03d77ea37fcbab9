/**
 The end of an event stream, and what the caller who waits on it is told: submit_fg_unique of
 src/client/mod.rs, in every run of ClientRuns.
 */
module ClientStreams {
  import opened Wrappers
  import opened Protocol
  import opened ClientCore
  import opened ClientSide
  import opened ClientRuns
  import opened ClientTheorems
  import opened ClientGuarantees

  /** The actor still has the sending half of the stream: with the request, or in a slot of its job. */
  predicate HoldsSender(c: Client, id: Id) {
    (exists p <- c.pending :: p.id == id) || exists h <- c.jobs :: Some(id) in c.jobs[h].slots
  }

  // ---------- Senders never come back ----------

  lemma DeliverHolds(s: Subs, terminal: bool, id: Id)
    requires Some(id) in s.Deliver(terminal).slots
    ensures Some(id) in s.slots
  {
  }

  lemma HandlingHolds(c: Client, p: Packet, id: Id)
    requires HoldsSender(Handle1(c, p).client, id)
    ensures HoldsSender(c, id)
  {
    hide Subs.Deliver, EventOf, ReplyOf;
    if IsWork(p.ptype) && |p.args| > 0 && p.args[0] in c.jobs {
      var s := c.jobs[p.args[0]];
      if Some(id) in s.Deliver(EventOf(p).Terminal()).slots {
        DeliverHolds(s, EventOf(p).Terminal(), id);
      }
    }
  }

  lemma HandlingSends(c: Client, p: Packet, id: Id)
    requires !HoldsSender(c, id)
    ensures EventsFor(Handle1(c, p).effects, id) == []
  {
    hide Subs.Deliver, EventOf, ReplyOf;
    if IsWork(p.ptype) && |p.args| > 0 && p.args[0] in c.jobs {
      SendPerId(c.jobs[p.args[0]].Target(), EventOf(p), id);
    }
  }

  lemma {:induction false} NothingWithoutASender(c: Client, ps: seq<Packet>, id: Id)
    requires !HoldsSender(c, id)
    ensures !HoldsSender(Run(c, ps).client, id) && EventsFor(Run(c, ps).effects, id) == []
    decreases |ps|
  {
    hide Handle1, HoldsSender;
    if ps != [] {
      var o := Handle1(c, ps[0]);
      HandlingSends(c, ps[0], id);
      if HoldsSender(o.client, id) {
        HandlingHolds(c, ps[0], id);
      }
      NothingWithoutASender(o.client, ps[1..], id);
      EventsConcat(o.effects, Run(o.client, ps[1..]).effects, id);
    }
  }

  // ---------- Two more invariants ----------

  /** No sender outlives its connection; a stream that is over without that has had its terminal event. */
  predicate StreamOk(w: World, id: Id) {
    var owed := Watched(w.history, id);
    && (HoldsSender(w.side.client, id) ==> id in w.issued && id !in w.past)
    && (owed.status.Over? && id !in w.past ==> owed.events != [] && owed.events[|owed.events| - 1].Terminal())
  }

  lemma TakenHolds(c: Client, x: Command, id: Id)
    requires HoldsSender(c.Push(x), id)
    ensures HoldsSender(c, id) || id == x.id
  {
  }

  lemma PrunedHolds(c: Client, closed: set<Id>, id: Id)
    requires HoldsSender(Prune(c, closed), id)
    ensures HoldsSender(c, id)
  {
  }

  /** Moves of the client side, while the connection lasts. */
  lemma MoveKeepsStream(w: World, s: Step, id: Id)
    requires Inv(w) && StreamOk(w, id) && Enabled(w, s)
    requires s.Submits? || s.Connects? || s == Takes(true) || s.Delivers? || s.Sweeps? || s.Abandons?
    ensures StreamOk(Apply(w, s), id)
  {
    var c, w' := w.side.client, Apply(w, s);
    MoveChanges(w, s);
    hide HoldsSender, Watched, Post, Handle1, Apply, Coupled, Tracked, RegsAreActive, PendingIsTaken;
    if HoldsSender(w'.side.client, id) {
      match s {
        case Takes(_) =>
          TakenHolds(c, w.side.queue[0], id);
          assert w.side.queue[0] == Unserved(w)[|w.toServer|];
        case Delivers => HandlingHolds(c, w.toClient[0], id);
        case Sweeps => PrunedHolds(c, w.closed, id);
        case _ =>
      }
    }
  }

  lemma MoveChanges(w: World, s: Step)
    requires Coupled(w) && Enabled(w, s)
    requires s.Submits? || s.Connects? || s == Takes(true) || s.Delivers? || s.Sweeps? || s.Abandons?
    ensures var w' := Apply(w, s);
      && w'.history == w.history && w'.past == w.past && w.issued <= w'.issued
      && w'.side.client == match s
           case Takes(_) => w.side.client.Push(w.side.queue[0])
           case Delivers => Handle1(w.side.client, w.toClient[0]).client
           case Sweeps => Prune(w.side.client, w.closed)
           case _ => w.side.client
  {
    hide Handle1, Post, Prune, AllExpected, Mirrors, Run;
  }

  lemma ServerKeepsStream(w: World, s: Step, id: Id)
    requires StreamOk(w, id) && Enabled(w, s) && (s.Accepts? || s.Broadcasts?)
    ensures StreamOk(Apply(w, s), id)
  {
    hide HoldsSender, Watched, EventOf, ReplyOf;
    if s.Broadcasts? {
      HappeningKeepsStream(w, Apply(w, s), Broadcast(s.work.args[0], EventOf(s.work)), id);
    } else if Apply(w, s).history != w.history {
      HappeningKeepsStream(w, Apply(w, s), Registered(w.toServer[0].id, s.reply.args[0]), id);
    }
  }

  lemma HappeningKeepsStream(w: World, w': World, x: Happening, id: Id)
    requires StreamOk(w, id) && !x.ConnectionEnded? && w'.history == w.history + [x]
    requires w'.side == w.side && w'.past == w.past && w'.issued == w.issued
    ensures StreamOk(w', id)
  {
    WatchedStep(w.history, x, id);
    hide HoldsSender, Watched;
  }

  /** How many commands a step that ends the connection takes from the channel. */
  function Taken(s: Step): nat {
    if s.Takes? then 1 else 0
  }

  predicate EndsConnection(s: Step) {
    s.Breaks? || s.Quits? || s == Takes(false)
  }

  lemma BreakChanges(w: World, s: Step)
    requires Enabled(w, s) && EndsConnection(s)
    ensures Taken(s) <= |w.side.queue|
    ensures var w' := Apply(w, s);
      && w'.side.client == Fresh && w'.side.queue == w.side.queue[Taken(s)..] && !w'.side.phase.Connected?
      && w'.history == w.history + [ConnectionEnded] && w'.issued == w.issued && w'.closed == w.closed
      && w'.past == w.issued - CommandIds(w.side.queue[Taken(s)..])
  {
    hide Post, FailAll;
    assert w.side.queue[0..] == w.side.queue;
  }

  lemma BreakKeepsStream(w: World, s: Step, id: Id)
    requires Inv(w) && StreamOk(w, id) && Enabled(w, s) && EndsConnection(s)
    ensures StreamOk(Apply(w, s), id)
  {
    var w' := Apply(w, s);
    BreakChanges(w, s);
    FreshHoldsNothing(id);
    WatchedStep(w.history, ConnectionEnded, id);
    hide Apply, HoldsSender, Watched, Coupled, Tracked, RegsAreActive;
    if id !in w'.past {
      NotPastIsFresh(w, id, Taken(s));
    }
  }

  lemma FreshHoldsNothing(id: Id)
    ensures !HoldsSender(Fresh, id)
  {
  }

  lemma {:induction false} StreamsOk(w: World, steps: seq<Step>, id: Id)
    requires Inv(w) && StreamOk(w, id) && Legal(w, steps)
    ensures StreamOk(After(w, steps), id)
    decreases |steps|
  {
    hide Inv, StreamOk, Apply;
    if steps != [] {
      StepKeeps(w, steps[0]);
      match steps[0] {
        case Accepts(_) => ServerKeepsStream(w, steps[0], id);
        case Broadcasts(_) => ServerKeepsStream(w, steps[0], id);
        case Breaks => BreakKeepsStream(w, steps[0], id);
        case Quits => BreakKeepsStream(w, steps[0], id);
        case Takes(sent) =>
          if sent { MoveKeepsStream(w, steps[0], id); } else { BreakKeepsStream(w, steps[0], id); }
        case _ => MoveKeepsStream(w, steps[0], id);
      }
      StreamsOk(Apply(w, steps[0]), steps[1..], id);
    }
  }

  // ---------- A caller waiting for a result ----------

  datatype Awaited =
    | StillWaiting
    | Finished(result: bytes)
    | JobFailed
    | JobException(payload: bytes)
    | ConnectionLost

  /**
   What submit_fg_unique makes of its stream: the first terminal event decides; a stream that ends
   without one means that the connection is closed.
   */
  function Await(events: seq<JobEvent>, ended: bool): Awaited {
    if events == [] then if ended then ConnectionLost else StillWaiting
    else match events[0]
      case Complete(r) => Finished(r)
      case Fail => JobFailed
      case Exception(p) => JobException(p)
      case _ => Await(events[1..], ended)
  }

  /** The loop of submit_fg_unique over what its stream has yielded so far, its end included. */
  method AwaitResult(events: seq<JobEvent>, ended: bool) returns (r: Awaited)
    ensures r == Await(events, ended)
  {
    var i := 0;
    while i < |events|
      invariant i <= |events| && Await(events, ended) == Await(events[i..], ended)
    {
      match events[i] {
        case Complete(result) => return Finished(result);
        case Fail => return JobFailed;
        case Exception(payload) => return JobException(payload);
        case _ =>
      }
      i := i + 1;
    }
    return if ended then ConnectionLost else StillWaiting;
  }

  predicate Undecided(events: seq<JobEvent>) {
    forall e <- events :: !e.Terminal()
  }

  lemma UndecidedFront(events: seq<JobEvent>)
    requires events != []
    ensures Undecided(events) <==> !events[0].Terminal() && Undecided(events[1..])
  {
    assert forall e <- events :: e == events[0] || e in events[1..];
  }

  lemma {:induction false} AwaitUndecided(events: seq<JobEvent>, ended: bool)
    ensures Await(events, ended) == (if ended then ConnectionLost else StillWaiting) <==> Undecided(events)
    ensures Await(events, ended).ConnectionLost? ==> ended
  {
    if events != [] {
      UndecidedFront(events);
      hide Undecided;
      AwaitUndecided(events[1..], ended);
    }
  }

  /** The first terminal event of a stream decides, by its own kind and with its own payload. */
  lemma {:induction false} FirstTerminalDecides(events: seq<JobEvent>, ended: bool, i: nat)
    requires i < |events| && Undecided(events[..i])
    ensures events[i].Complete? ==> Await(events, ended) == Finished(events[i].data)
    ensures events[i].Fail? ==> Await(events, ended) == JobFailed
    ensures events[i].Exception? ==> Await(events, ended) == JobException(events[i].data)
  {
    if i > 0 {
      assert events[..i][0] in events[..i];
      assert events[1..][..i - 1] == events[..i][1..];
      FirstTerminalDecides(events[1..], ended, i - 1);
    }
  }

  /** A stream whose job was accepted, is open and has had no terminal event ends just with its connection. */
  lemma StreamEndsWithConnection(steps: seq<Step>, id: Id)
    requires Legal(Init, steps)
    ensures var w := After(Init, steps);
      id !in w.closed && !Watched(w.history, id).status.NotYet? && Undecided(w.Inbox(id)) ==>
        (!HoldsSender(w.side.client, id) <==> id in w.past)
  {
    InitHolds();
    Coupling(Init, steps);
    StreamsOk(Init, steps, id);
    var w := After(Init, steps);
    if id !in w.closed && id !in w.past && !HoldsSender(w.side.client, id) && Undecided(w.Inbox(id)) {
      NothingWithoutASender(w.side.client, w.toClient, id);
      hide HoldsSender, Run, After, Legal;
      assert EventsOk(w, id);
      var owed := Watched(w.history, id);
      assert w.Inbox(id) + [] == w.Inbox(id) == owed.events;
      LastDecides(owed.events);
      if owed.status.Active? {
        ActiveIsHeld(w, id);
      }
    }
  }

  lemma LastDecides(events: seq<JobEvent>)
    ensures events != [] && events[|events| - 1].Terminal() ==> !Undecided(events)
  {
  }

  lemma ActiveIsHeld(w: World, id: Id)
    requires Inv(w) && id !in w.closed && Watched(w.history, id).status.Active?
    ensures HoldsSender(Settled(w), id)
  {
    hide Watched, Run, AllExpected, IdsAreFresh, Tracked;
    var h := Watched(w.history, id).status.handle;
    var i :| 0 <= i < |w.regs[h]| && w.regs[h][i] == id;
    assert Settled(w).jobs[h].slots[i] == Some(id);
  }

  /**
   The caller of an accepted foreground submission is told that the connection is closed exactly
   when its connection ended before it was sent a terminal event.
   */
  lemma ClosedIffConnectionEnded(steps: seq<Step>, id: Id)
    requires Legal(Init, steps)
    ensures var w := After(Init, steps);
      id !in w.closed && !Watched(w.history, id).status.NotYet? ==>
        (Await(w.Inbox(id), !HoldsSender(w.side.client, id)).ConnectionLost? <==>
          id in w.past && Undecided(w.Inbox(id)))
  {
    StreamEndsWithConnection(steps, id);
    var w := After(Init, steps);
    hide After, Legal, Watched, HoldsSender;
    AwaitUndecided(w.Inbox(id), !HoldsSender(w.side.client, id));
  }

  // ---------- A request that the codec refuses ----------

  lemma CopiesNext<T>(x: T, n: nat)
    ensures Copies(x, n + 1) == [x] + Copies(x, n)
  {
  }

  lemma {:induction false} FailAllTells(pending: seq<Command>, id: Id)
    ensures AnswersFor(FailAll(pending), id) == Copies(ConnectionClosed, Waiting(pending, id))
    ensures EventsFor(FailAll(pending), id) == []
  {
    if pending != [] {
      var first, rest := [Answer(pending[0].id, ConnectionClosed)], FailAll(pending[1..]);
      assert FailAll(pending) == first + rest;
      hide FailAll, AnswersFor, EventsFor, Copies;
      FailAllTells(pending[1..], id);
      AnswersConcat(first, rest, id);
      EventsConcat(first, rest, id);
      AnswerAlone(pending[0].id, ConnectionClosed, id);
      CopiesNext<Reply>(ConnectionClosed, Waiting(pending[1..], id));
    }
  }

  lemma AnswerAlone(of: Id, reply: Reply, id: Id)
    ensures AnswersFor([Answer(of, reply)], id) == if id == of then [reply] else []
    ensures EventsFor([Answer(of, reply)], id) == []
  {
  }

  /** A connection outlives the sending of a request exactly when the codec takes it and the write works. */
  lemma TakeKeepsConnectionIff(s: Side, ok: bool)
    requires s.phase.Connected? && s.queue != []
    ensures SideStep(s, Take(ok)).side.phase.Connected? <==> ok && s.queue[0].fits
  {
  }

  /**
   What a request costs that the codec refuses, whatever the server did: its own caller is told
   so, every other waiting caller that the connection is closed, no stream has a sender left, and
   just the commands still on the channel survive.
   */
  lemma RefusedRequestCosts(s: Side, ok: bool, id: Id)
    requires s.phase.Connected? && s.queue != [] && !s.queue[0].fits
    ensures var o := SideStep(s, Take(ok));
      && o.side.queue == s.queue[1..] && o.side.phase.Disconnected?
      && !HoldsSender(o.side.client, id) && EventsFor(o.effects, id) == []
      && AnswersFor(o.effects, id) == (if id == s.queue[0].id then [SendFailed] else [])
                                      + Copies(ConnectionClosed, Waiting(s.client.pending, id))
  {
    FreshHoldsNothing(id);
    FailAllTells(s.client.pending, id);
    AnswerAlone(s.queue[0].id, SendFailed, id);
    AnswersConcat([Answer(s.queue[0].id, SendFailed)], FailAll(s.client.pending), id);
    EventsConcat([Answer(s.queue[0].id, SendFailed)], FailAll(s.client.pending), id);
    hide AnswersFor, EventsFor, HoldsSender;
  }

  /**
   In every run: when the oldest command does not fit, taking it can only end the connection, and
   then every accepted, open stream of the connection without a terminal event is reported lost.
   */
  lemma RefusedRequestEndsStreams(steps: seq<Step>, id: Id)
    requires Legal(Init, steps)
    requires var w := After(Init, steps);
      && w.side.phase.Connected? && w.side.queue != [] && !w.side.queue[0].fits
      && id !in w.closed && !Watched(w.history, id).status.NotYet? && Undecided(w.Inbox(id))
    ensures var w := After(Init, steps);
      && !Enabled(w, Takes(true)) && Enabled(w, Takes(false))
      && var w' := Apply(w, Takes(false));
        Await(w'.Inbox(id), !HoldsSender(w'.side.client, id)).ConnectionLost?
  {
    var w := After(Init, steps);
    var w' := Apply(w, Takes(false));
    BreakChanges(w, Takes(false));
    FreshHoldsNothing(id);
    MoveInbox(w, Take(false), id);
    RefusedRequestCosts(w.side, false, id);
    hide After, Legal, Watched, HoldsSender, SideStep;
    assert w.Inbox(id) + [] == w.Inbox(id);
    AwaitUndecided(w'.Inbox(id), true);
  }

  const Job: Packet := Packet(Res, JobCreated, [[1]])
  const Waiter: Command := Command(0, Submit(true), true)
  const Oversize: Command := Command(1, Submit(true), false)

  /** One caller waits for its job; another submits what does not fit. */
  const OversizeRun: seq<Step> :=
    [Submits(Waiter)] + ([Connects(true)] + ([Takes(true)] + ([Accepts(Job)] + ([Delivers] + [Submits(Oversize)]))))

  lemma Unroll(w: World, s: Step, rest: seq<Step>)
    requires Enabled(w, s) && Legal(Apply(w, s), rest)
    ensures Legal(w, [s] + rest) && After(w, [s] + rest) == After(Apply(w, s), rest)
  {
    hide Enabled, Apply;
    FrontOf([s], rest);
    assert [s][1..] + rest == rest;
  }

  lemma UnrollLast(w: World, s: Step)
    requires Enabled(w, s)
    ensures Legal(w, [s]) && After(w, [s]) == Apply(w, s)
  {
    hide Enabled, Apply;
    assert [s][1..] == [];
    assert Legal(Apply(w, s), []) && After(Apply(w, s), []) == Apply(w, s);
  }

  const Served: Client := Client([], map[[1] := Subs([Some(0)], 0)])

  lemma WaiterConnects() returns (w1: World, w2: World)
    ensures Enabled(Init, Submits(Waiter)) && w1 == Apply(Init, Submits(Waiter))
    ensures Enabled(w1, Connects(true)) && w2 == Apply(w1, Connects(true))
    ensures w2 == Init.(side := Side([Waiter], Fresh, Connected), issued := {0})
  {
    w1 := Apply(Init, Submits(Waiter));
    assert w1 == Init.(side := Side([Waiter], Fresh, Disconnected), issued := {0});
    w2 := Apply(w1, Connects(true));
  }

  lemma WaiterAsks(w2: World) returns (w3: World, w4: World)
    requires w2 == Init.(side := Side([Waiter], Fresh, Connected), issued := {0})
    ensures Enabled(w2, Takes(true)) && w3 == Apply(w2, Takes(true))
    ensures Enabled(w3, Accepts(Job)) && w4 == Apply(w3, Accepts(Job))
    ensures w4.side == Side([], Client([Waiter], map[]), Connected) && w4.toClient == [Job]
    ensures w4.inboxes == map[] && w4.issued == {0}
  {
    w3 := Apply(w2, Takes(true));
    assert w3 == w2.(side := Side([], Client([Waiter], map[]), Connected), toServer := [Waiter]);
    w4 := Apply(w3, Accepts(Job));
  }

  /** The waiter has its handle and an open stream. */
  lemma WaiterIsServed(w4: World) returns (w5: World)
    requires w4.side == Side([], Client([Waiter], map[]), Connected) && w4.toClient == [Job]
    requires w4.inboxes == map[] && w4.issued == {0}
    ensures Enabled(w4, Delivers) && w5 == Apply(w4, Delivers)
    ensures w5.side == Side([], Served, Connected) && w5.inboxes == map[] && w5.issued == {0}
  {
    JobJoins();
    hide Handle1;
    var fs := [Answer(0, Created([1]))];
    assert SideStep(w4.side, Receive(Job)) == SideOutcome(Side([], Served, Connected), fs);
    assert Post(map[], w4.closed, fs) == Post(map[], w4.closed, fs[1..]) == map[];
    w5 := Apply(w4, Delivers);
  }

  lemma OtherSubmits(w5: World) returns (w6: World)
    requires w5.side == Side([], Served, Connected) && w5.inboxes == map[] && w5.issued == {0}
    ensures Enabled(w5, Submits(Oversize)) && w6 == Apply(w5, Submits(Oversize))
    ensures w6.side == Side([Oversize], Served, Connected) && w6.inboxes == map[]
  {
    w6 := Apply(w5, Submits(Oversize));
  }

  lemma JobJoins()
    ensures Handle1(Client([Waiter], map[]), Job) == Outcome(Served, [Answer(0, Created([1]))])
  {
    var c := Client([Waiter], map[]);
    assert c.pending[1..] == [];
    assert NoSubs.Add(0) == Subs([Some(0)], 0);
    var jobs: map<Handle, Subs> := map[];
    assert jobs[[1] := Subs([Some(0)], 0)] == Served.jobs;
  }

  /** A run, from the start, in which one caller's oversize request ends the stream of another. */
  lemma OversizeIsReachable()
    ensures Legal(Init, OversizeRun)
    ensures var w := After(Init, OversizeRun);
      && Enabled(w, Takes(false)) && !Enabled(w, Takes(true)) && HoldsSender(w.side.client, 0)
      && var w' := Apply(w, Takes(false));
        Await(w'.Inbox(0), !HoldsSender(w'.side.client, 0)).ConnectionLost?
  {
    var w6 := OversizeRunIs();
    assert Served.jobs[[1]].slots[0] == Some(0) && HoldsSender(Served, 0);
    OversizeCosts(w6);
  }

  lemma OversizeCosts(w: World)
    requires w.side == Side([Oversize], Served, Connected) && w.inboxes == map[]
    ensures Enabled(w, Takes(false)) && !Enabled(w, Takes(true))
    ensures var w' := Apply(w, Takes(false)); Await(w'.Inbox(0), !HoldsSender(w'.side.client, 0)).ConnectionLost?
  {
    var w' := Apply(w, Takes(false));
    BreakChanges(w, Takes(false));
    FreshHoldsNothing(0);
    MoveInbox(w, Take(false), 0);
    RefusedRequestCosts(w.side, false, 0);
    hide SideStep, HoldsSender;
    assert w'.Inbox(0) == [];
  }

  lemma OversizeRunIs() returns (w6: World)
    ensures Legal(Init, OversizeRun) && After(Init, OversizeRun) == w6
    ensures w6.side == Side([Oversize], Served, Connected) && w6.inboxes == map[]
  {
    hide Apply, Enabled, Served;
    var w1, w2 := WaiterConnects();
    var w3, w4 := WaiterAsks(w2);
    var w5 := WaiterIsServed(w4);
    w6 := OtherSubmits(w5);
    OversizeUnrolls(w1, w2, w3, w4, w5);
  }

  lemma OversizeUnrolls(w1: World, w2: World, w3: World, w4: World, w5: World)
    requires Enabled(Init, Submits(Waiter)) && w1 == Apply(Init, Submits(Waiter))
    requires Enabled(w1, Connects(true)) && w2 == Apply(w1, Connects(true))
    requires Enabled(w2, Takes(true)) && w3 == Apply(w2, Takes(true))
    requires Enabled(w3, Accepts(Job)) && w4 == Apply(w3, Accepts(Job))
    requires Enabled(w4, Delivers) && w5 == Apply(w4, Delivers)
    requires Enabled(w5, Submits(Oversize))
    ensures Legal(Init, OversizeRun) && After(Init, OversizeRun) == Apply(w5, Submits(Oversize))
  {
    hide Enabled, Apply, Legal, After;
    UnrollLast(w5, Submits(Oversize));
    Unroll(w4, Delivers, [Submits(Oversize)]);
    Unroll(w3, Accepts(Job), [Delivers] + [Submits(Oversize)]);
    Unroll(w2, Takes(true), [Accepts(Job)] + ([Delivers] + [Submits(Oversize)]));
    Unroll(w1, Connects(true), [Takes(true)] + ([Accepts(Job)] + ([Delivers] + [Submits(Oversize)])));
    Unroll(Init, Submits(Waiter),
           [Connects(true)] + ([Takes(true)] + ([Accepts(Job)] + ([Delivers] + [Submits(Oversize)]))));
  }

  /** The first terminal event broadcast for the job of `id` since it was registered. */
  ghost predicate FirstTerminal(history: seq<Happening>, id: Id, at: nat, e: JobEvent) {
    && at < |history| && e.Terminal()
    && Watched(history[..at], id).status.Active?
    && history[at] == Broadcast(Watched(history[..at], id).status.handle, e)
  }

  /** What is owed ends with a terminal event only by the first one broadcast for the job. */
  lemma {:induction false} TerminalWasBroadcast(history: seq<Happening>, id: Id) returns (at: nat)
    requires var owed := Watched(history, id).events; owed != [] && owed[|owed| - 1].Terminal()
    ensures var owed := Watched(history, id).events; FirstTerminal(history, id, at, owed[|owed| - 1])
  {
    var n := |history| - 1;
    var before, x := Watched(history[..n], id), history[n];
    if before.events != [] && before.events[|before.events| - 1].Terminal() {
      OwedEndsWithTerminal(history[..n], id);
      at := TerminalWasBroadcast(history[..n], id);
      assert history[..n][..at] == history[..at];
    } else {
      at := n;
    }
  }

  /**
   In every run, once a caller has been sent a terminal event, it is told what the first terminal
   event broadcast for its job says: the result of a completed job, the failure of a failed one, or
   the payload of an exception.
   */
  lemma ReportedResultIsTheJobs(steps: seq<Step>, id: Id, ended: bool) returns (at: nat, e: JobEvent)
    requires Legal(Init, steps) && !Undecided(After(Init, steps).Inbox(id))
    ensures var w := After(Init, steps);
      && FirstTerminal(w.history, id, at, e)
      && (e.Complete? ==> Await(w.Inbox(id), ended) == Finished(e.data))
      && (e.Fail? ==> Await(w.Inbox(id), ended) == JobFailed)
      && (e.Exception? ==> Await(w.Inbox(id), ended) == JobException(e.data))
  {
    ExactlyOnce(steps, id);
    var w := After(Init, steps);
    var got := w.Inbox(id);
    hide After, Legal, Watched;
    assert got == Watched(w.history, id).events;
    var n := |got| - 1;
    OnlyLastDecides(got);
    e := got[n];
    at := TerminalWasBroadcast(w.history, id);
    FirstTerminalDecides(got, ended, n);
  }

  lemma OnlyLastDecides(events: seq<JobEvent>)
    requires !Undecided(events) && forall i :: 0 <= i < |events| - 1 ==> !events[i].Terminal()
    ensures events != [] && events[|events| - 1].Terminal() && Undecided(events[..|events| - 1])
  {
    var e :| e in events && e.Terminal();
    var i :| 0 <= i < |events| && events[i] == e;
  }
}
