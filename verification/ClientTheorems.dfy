/**
 The coupling invariant of client and server and what follows from it: exactly-once delivery,
 FIFO pairing of replies, and a cursor at rest whenever a subscriber joins.
 */
module ClientTheorems {
  import opened Wrappers
  import opened Protocol
  import opened ClientCore
  import opened ClientSide
  import opened ClientRuns

  // ---------- Handling a packet as the protocol means it ----------

  /**
   The packet finds the client as the source's comments say it must: a reply finds a request of
   its own kind waiting, a subscriber joins a job only between rounds, and a copy of an event
   finds a slot.
   */
  predicate Expected(c: Client, p: Packet) {
    if IsWork(p.ptype) then
      && |p.args| > 0 && p.args[0] in c.jobs
      && c.jobs[p.args[0]].cursor < |c.jobs[p.args[0]].slots|
    else
      && IsReply(p.ptype) && |p.args| == p.ptype.ArgCount()
      && c.pending != [] && ReplyOf(c.pending[0].kind, p).Some?
      && (p.ptype.JobCreated? && p.args[0] in c.jobs ==> c.jobs[p.args[0]].cursor == 0)
  }

  predicate AllExpected(c: Client, ps: seq<Packet>)
    decreases |ps|
  {
    ps == [] || (Expected(c, ps[0]) && AllExpected(Handle1(c, ps[0]).client, ps[1..]))
  }

  lemma {:induction false} AllExpectedConcat(c: Client, a: seq<Packet>, b: seq<Packet>)
    ensures AllExpected(c, a + b) <==> AllExpected(c, a) && AllExpected(Run(c, a).client, b)
    decreases |a|
  {
    hide Handle1, Expected;
    if a == [] {
      assert a + b == b;
    } else {
      AllExpectedConcat(Handle1(c, a[0]).client, a[1..], b);
      assert (a + b)[1..] == a[1..] + b;
    }
  }

  /** A request sent meanwhile waits behind the others and changes nothing else. */
  lemma {:induction false} PushCommutes(c: Client, x: Command, ps: seq<Packet>)
    requires AllExpected(c, ps)
    ensures AllExpected(c.Push(x), ps)
    ensures Run(c.Push(x), ps) == Outcome(Run(c, ps).client.Push(x), Run(c, ps).effects)
    decreases |ps|
  {
    if ps != [] {
      PushCommutes1(c, x, ps[0]);
      PushCommutes(Handle1(c, ps[0]).client, x, ps[1..]);
    }
  }

  lemma PushCommutes1(c: Client, x: Command, p: Packet)
    requires Expected(c, p)
    ensures Expected(c.Push(x), p)
    ensures Handle1(c.Push(x), p) == Outcome(Handle1(c, p).client.Push(x), Handle1(c, p).effects)
  {
    if !IsWork(p.ptype) {
      assert c.Push(x).pending[1..] == c.pending[1..] + [x];
    }
  }

  // ---------- Pruning ----------

  /** `b` is `a` after sweeps that saw only streams of `closed` dropped. */
  predicate Swept(a: Subs, b: Subs, closed: set<Id>) {
    && |a.slots| == |b.slots| && a.cursor == b.cursor
    && forall i :: 0 <= i < |a.slots| ==>
         b.slots[i] == a.slots[i] || (b.slots[i].None? && a.slots[i].Some? && a.slots[i].value in closed)
  }

  predicate SweptClient(a: Client, b: Client, closed: set<Id>) {
    && a.pending == b.pending && a.jobs.Keys == b.jobs.Keys
    && forall h <- a.jobs :: Swept(a.jobs[h], b.jobs[h], closed)
  }

  /** The same replies to everyone, and the same events to every stream not dropped. */
  ghost predicate SameForOpen(f: seq<Effect>, g: seq<Effect>, closed: set<Id>) {
    forall id :: AnswersFor(f, id) == AnswersFor(g, id)
              && (id !in closed ==> EventsFor(f, id) == EventsFor(g, id))
  }

  lemma SweptHandle1(a: Client, b: Client, p: Packet, closed: set<Id>)
    requires SweptClient(a, b, closed)
    ensures SweptClient(Handle1(a, p).client, Handle1(b, p).client, closed)
    ensures SameForOpen(Handle1(a, p).effects, Handle1(b, p).effects, closed)
    ensures Expected(a, p) <==> Expected(b, p)
  {
    if IsWork(p.ptype) {
      if |p.args| > 0 && p.args[0] in a.jobs {
        SweptDeliver(a.jobs[p.args[0]], b.jobs[p.args[0]], EventOf(p), closed);
      }
    }
  }

  lemma SweptDeliver(a: Subs, b: Subs, e: JobEvent, closed: set<Id>)
    requires Swept(a, b, closed)
    ensures Swept(a.Deliver(e.Terminal()), b.Deliver(e.Terminal()), closed)
    ensures SameForOpen(Send(a.Target(), e), Send(b.Target(), e), closed)
  {
  }

  lemma {:induction false} SweptRun(a: Client, b: Client, ps: seq<Packet>, closed: set<Id>)
    requires SweptClient(a, b, closed)
    ensures SweptClient(Run(a, ps).client, Run(b, ps).client, closed)
    ensures SameForOpen(Run(a, ps).effects, Run(b, ps).effects, closed)
    ensures AllExpected(a, ps) <==> AllExpected(b, ps)
    decreases |ps|
  {
    hide Handle1, Expected;
    if ps != [] {
      SweptHandle1(a, b, ps[0], closed);
      var x, y := Handle1(a, ps[0]), Handle1(b, ps[0]);
      SweptRun(x.client, y.client, ps[1..], closed);
      SameForOpenConcat(x.effects, y.effects, Run(x.client, ps[1..]).effects, Run(y.client, ps[1..]).effects, closed);
    }
  }

  lemma SameForOpenConcat(f: seq<Effect>, g: seq<Effect>, f': seq<Effect>, g': seq<Effect>, closed: set<Id>)
    requires SameForOpen(f, g, closed) && SameForOpen(f', g', closed)
    ensures SameForOpen(f + f', g + g', closed)
  {
    forall id ensures AnswersFor(f + f', id) == AnswersFor(g + g', id)
                      && (id !in closed ==> EventsFor(f + f', id) == EventsFor(g + g', id)) {
      EventsConcat(f, f', id);
      EventsConcat(g, g', id);
      AnswersConcat(f, f', id);
      AnswersConcat(g, g', id);
    }
  }

  // ---------- The invariant ----------

  /** The effects that the packets still on the wire will have. */
  function Flying(w: World): seq<Effect> {
    Run(w.side.client, w.toClient).effects
  }

  /** The client as it will be when it has handled the packets still on the wire. */
  function Settled(w: World): Client {
    Run(w.side.client, w.toClient).client
  }

  /** One slot per registration, in order; a slot is empty only if its stream was dropped. */
  predicate MirrorsSlots(slots: seq<Option<Id>>, regs: seq<Id>, closed: set<Id>) {
    && |slots| == |regs|
    && forall i :: 0 <= i < |slots| ==> slots[i] == Some(regs[i]) || (slots[i].None? && regs[i] in closed)
  }

  predicate Mirrors(jobs: map<Handle, Subs>, regs: map<Handle, seq<Id>>, closed: set<Id>) {
    && jobs.Keys == regs.Keys
    && forall h <- regs :: regs[h] != [] && jobs[h].cursor == 0 && MirrorsSlots(jobs[h].slots, regs[h], closed)
  }

  /** The client, once it has read what is on the wire, agrees with the server. */
  predicate Coupled(w: World) {
    && AllExpected(w.side.client, w.toClient)
    && Settled(w).pending == w.toServer
    && Mirrors(Settled(w).jobs, w.regs, w.closed)
    && (!w.side.phase.Connected? ==> w.toServer == [] && w.toClient == [] && w.regs == map[] && w.side.client == Fresh)
  }

  /** The registrations are the streams whose job is running, each once. */
  ghost predicate RegsAreActive(w: World) {
    && (forall h, i, j :: h in w.regs && 0 <= i < j < |w.regs[h]| ==> w.regs[h][i] != w.regs[h][j])
    && (forall h, i :: h in w.regs && 0 <= i < |w.regs[h]| ==> Watched(w.history, w.regs[h][i]).status == Active(h))
    && (forall id :: Watched(w.history, id).status.Active? ==>
          var h := Watched(w.history, id).status.handle; h in w.regs && id in w.regs[h])
  }

  /** Commands the server has not answered. */
  function Unserved(w: World): seq<Command> {
    w.toServer + w.side.queue
  }

  predicate DistinctIds(q: seq<Command>) {
    forall i, j :: 0 <= i < j < |q| ==> q[i].id != q[j].id
  }

  /** A command the server has not answered and no connection has dropped. */
  predicate Untouched(w: World, id: Id) {
    id in w.issued && id !in w.past && id !in w.served && Watched(w.history, id).status.NotYet?
  }

  ghost predicate IdsAreFresh(w: World) {
    && DistinctIds(Unserved(w))
    && (forall c <- Unserved(w) :: Untouched(w, c.id))
    && (forall id :: id !in w.issued ==> id !in w.served && Watched(w.history, id).status.NotYet?)
    && w.past <= w.issued
  }

  predicate PendingIsTaken(w: World) {
    forall p <- w.side.client.pending :: p.id in w.issued && p.id !in CommandIds(w.side.queue)
  }

  /** The stream of `id` has received, or will receive from the wire, what it is owed. */
  predicate EventsOk(w: World, id: Id) {
    var owed, flying := Watched(w.history, id), EventsFor(Flying(w), id);
    && w.Inbox(id) <= owed.events
    && (id in w.past ==> !owed.status.Active?)
    && (id in w.past - w.closed ==> flying == [])
    && (id !in w.past + w.closed ==> w.Inbox(id) + flying == owed.events)
  }

  predicate Allowed(w: World, id: Id, r: Reply) {
    r.ConnectionClosed? || r.SendFailed? || (id in w.served && r == w.served[id])
  }

  function ServedTo(w: World, id: Id): seq<Reply> {
    if id in w.served then [w.served[id]] else []
  }

  /** The caller of `id` has been given, or will be given from the wire, the reply to its own request. */
  predicate AnswersOk(w: World, id: Id) {
    var given, flying := AnswersFor(w.done, id), AnswersFor(Flying(w), id);
    if id in w.past then flying == [] && forall r <- given :: Allowed(w, id, r)
    else given + flying == ServedTo(w, id)
  }

  ghost predicate Tracked(w: World) {
    forall id :: EventsOk(w, id) && AnswersOk(w, id)
  }

  ghost predicate Inv(w: World) {
    Coupled(w) && RegsAreActive(w) && IdsAreFresh(w) && PendingIsTaken(w) && Tracked(w)
  }

  lemma InitHolds()
    ensures Inv(Init)
  {
  }

  // ---------- What arrives in the inboxes ----------

  lemma {:induction false} PostPerId(inboxes: map<Id, seq<JobEvent>>, closed: set<Id>, fs: seq<Effect>, id: Id)
    ensures InboxIn(Post(inboxes, closed, fs), id)
         == if id in closed then InboxIn(inboxes, id) else InboxIn(inboxes, id) + EventsFor(fs, id)
    decreases |fs|
  {
    var before := InboxIn(inboxes, id);
    assert before + [] == before;
    if fs != [] {
      var f := fs[0];
      var next := if f.Event? && f.id !in closed
                  then inboxes[f.id := InboxIn(inboxes, f.id) + [f.event]]
                  else inboxes;
      assert InboxIn(next, id) == if id in closed then before else before + EventIn(f, id);
      assert Post(inboxes, closed, fs) == Post(next, closed, fs[1..]);
      PostPerId(next, closed, fs[1..], id);
      hide InboxIn, Post;
      Assoc(before, EventIn(f, id), EventsFor(fs[1..], id));
    }
  }

  lemma MoveInbox(w: World, input: Input, id: Id)
    ensures var fs := SideStep(w.side, input).effects;
      Move(w, input).Inbox(id) == if id in w.closed then w.Inbox(id) else w.Inbox(id) + EventsFor(fs, id)
  {
    PostPerId(w.inboxes, w.closed, SideStep(w.side, input).effects, id);
  }

  lemma WatchedStep(history: seq<Happening>, x: Happening, id: Id)
    ensures Watched(history + [x], id) == Next(Watched(history, id), id, x)
  {
    assert (history + [x])[..|history|] == history;
  }

  // ---------- Each step keeps the invariant ----------

  lemma NoEffects(w: World, input: Input)
    requires SideStep(w.side, input).effects == []
    ensures Move(w, input) == w.(side := SideStep(w.side, input).side)
  {
    assert w.done + [] == w.done;
  }

  /** Nothing was sent to callers, and what is on the wire means the same for open streams. */
  lemma TrackedFrame(w: World, w': World)
    requires Tracked(w)
    requires w'.inboxes == w.inboxes && w'.done == w.done && w'.history == w.history
    requires w'.served == w.served && w'.past == w.past && w.closed <= w'.closed
    requires SameForOpen(Flying(w), Flying(w'), w'.closed)
    ensures Tracked(w')
  {
    hide Run, Watched, Flying;
    forall id ensures EventsOk(w', id) && AnswersOk(w', id) {
      assert EventsOk(w, id) && AnswersOk(w, id);
    }
  }

  /** The server did nothing and no request changed hands but from the channel to the wire. */
  lemma ServerFrame(w: World, w': World)
    requires RegsAreActive(w) && IdsAreFresh(w)
    requires w'.regs == w.regs && w'.history == w.history && w'.served == w.served
    requires w'.past == w.past && w'.issued == w.issued && Unserved(w') == Unserved(w)
    ensures RegsAreActive(w') && IdsAreFresh(w')
  {
    hide Watched, Unserved;
  }

  lemma SubmitsFresh(w: World, w': World, cmd: Command)
    requires IdsAreFresh(w) && PendingIsTaken(w) && cmd.id !in w.issued
    requires w' == w.(side := w.side.(queue := w.side.queue + [cmd]), issued := w.issued + {cmd.id})
    ensures IdsAreFresh(w') && PendingIsTaken(w')
  {
    hide Watched;
    assert Unserved(w') == Unserved(w) + [cmd];
    assert CommandIds(w'.side.queue) == CommandIds(w.side.queue) + {cmd.id};
  }

  lemma SubmitsKeeps(w: World, w': World, cmd: Command)
    requires Inv(w) && cmd.id !in w.issued
    requires w' == w.(side := w.side.(queue := w.side.queue + [cmd]), issued := w.issued + {cmd.id})
    ensures Inv(w')
  {
    SubmitsFresh(w, w', cmd);
    hide Run, Watched, IdsAreFresh, PendingIsTaken;
    TrackedFrame(w, w');
  }

  lemma ConnectsKeeps(w: World, w': World)
    requires Inv(w) && w' == w.(side := w.side.(phase := Connected))
    ensures Inv(w')
  {
    hide Run, Watched;
    assert Unserved(w') == Unserved(w);
    ServerFrame(w, w');
    TrackedFrame(w, w');
  }

  lemma TakesCoupled(w: World, w': World, cmd: Command)
    requires Coupled(w) && w.side.phase.Connected?
    requires w'.side == Side(w'.side.queue, w.side.client.Push(cmd), Connected)
    requires w'.toServer == w.toServer + [cmd] && w'.toClient == w.toClient
    requires w'.regs == w.regs && w'.closed == w.closed
    ensures Coupled(w') && Flying(w') == Flying(w)
  {
    PushCommutes(w.side.client, cmd, w.toClient);
    hide Run, AllExpected;
    assert w'.toServer == w.toServer + [cmd];
  }

  lemma TakesPending(w: World, w': World)
    requires IdsAreFresh(w) && PendingIsTaken(w) && w.side.queue != []
    requires w'.side.queue == w.side.queue[1..] && w'.issued == w.issued
    requires w'.side.client.pending == w.side.client.pending + [w.side.queue[0]]
    ensures PendingIsTaken(w')
  {
    hide Watched;
    DistinctSuffix(Unserved(w), |w.toServer|);
    assert Unserved(w)[|w.toServer|..] == w.side.queue;
    assert w.side.queue[0] in Unserved(w);
  }

  lemma TakesKeeps(w: World, w': World, cmd: Command)
    requires Inv(w) && w.side.phase.Connected? && w.side.queue != [] && cmd == w.side.queue[0]
    requires w' == w.(side := Side(w.side.queue[1..], w.side.client.Push(cmd), Connected),
                      toServer := w.toServer + [cmd])
    ensures Inv(w')
  {
    TakesCoupled(w, w', cmd);
    TakesPending(w, w');
    assert Unserved(w') == Unserved(w);
    hide Run, Watched, Coupled, PendingIsTaken, Unserved;
    ServerFrame(w, w');
    TrackedFrame(w, w');
  }

  lemma AbandonsKeeps(w: World, w': World, id: Id)
    requires Inv(w) && w' == w.(closed := w.closed + {id})
    ensures Inv(w')
  {
    hide Run, Watched;
    assert Unserved(w') == Unserved(w);
    ServerFrame(w, w');
    TrackedFrame(w, w');
  }

  lemma SweepsKeeps(w: World, w': World)
    requires Inv(w) && w.side.phase.Connected?
    requires w' == w.(side := w.side.(client := Prune(w.side.client, w.closed)))
    ensures Inv(w')
  {
    SweptRun(w.side.client, w'.side.client, w.toClient, w.closed);
    hide Run, Watched, Handle1;
    assert Unserved(w') == Unserved(w);
    ServerFrame(w, w');
    TrackedFrame(w, w');
  }

  // ---------- The client receives a packet ----------

  ghost predicate Posted(w: World, w': World, fs: seq<Effect>) {
    && w'.done == w.done + fs
    && forall id :: w'.Inbox(id) == if id in w.closed then w.Inbox(id) else w.Inbox(id) + EventsFor(fs, id)
  }

  lemma PopsOnly(c: Client, p: Packet)
    ensures forall x <- Handle1(c, p).client.pending :: x in c.pending
  {
  }

  lemma DeliversCoupled(w: World, w': World, p: Packet)
    requires Coupled(w) && w.toClient != [] && p == w.toClient[0]
    requires w'.side == w.side.(client := Handle1(w.side.client, p).client) && w'.toClient == w.toClient[1..]
    requires w'.toServer == w.toServer && w'.regs == w.regs && w'.closed == w.closed
    ensures Coupled(w') && w.side.phase.Connected?
    ensures Flying(w) == Handle1(w.side.client, p).effects + Flying(w')
  {
    hide Handle1, Expected;
  }

  lemma DeliversEvents(w: World, w': World, fs: seq<Effect>, id: Id)
    requires EventsOk(w, id) && Flying(w) == fs + Flying(w') && Posted(w, w', fs)
    requires w'.history == w.history && w'.past == w.past && w'.closed == w.closed
    ensures EventsOk(w', id)
  {
    hide Run, Watched, Flying, EventsFor;
    var before, a, b := w.Inbox(id), EventsFor(fs, id), EventsFor(Flying(w'), id);
    EventsConcat(fs, Flying(w'), id);
    Assoc(before, a, b);
    if id in w.past {
      assert a + b == [] || id in w.closed;
    }
    if id !in w.past + w.closed {
      assert before + a <= (before + a) + b;
    }
  }

  lemma DeliversAnswers(w: World, w': World, fs: seq<Effect>, id: Id)
    requires AnswersOk(w, id) && Flying(w) == fs + Flying(w') && w'.done == w.done + fs
    requires w'.served == w.served && w'.past == w.past
    ensures AnswersOk(w', id)
  {
    hide Run, Flying;
    var a, b := AnswersFor(fs, id), AnswersFor(Flying(w'), id);
    AnswersConcat(fs, Flying(w'), id);
    AnswersConcat(w.done, fs, id);
    assert AnswersFor(w.done, id) + (a + b) == (AnswersFor(w.done, id) + a) + b;
    if id in w.past {
      assert a == [];
    }
  }

  lemma DeliversKeeps(w: World, w': World, p: Packet)
    requires Inv(w) && w.toClient != [] && p == w.toClient[0]
    requires w' == w.(side := w.side.(client := Handle1(w.side.client, p).client), toClient := w.toClient[1..],
                      done := w'.done, inboxes := w'.inboxes)
    requires Posted(w, w', Handle1(w.side.client, p).effects)
    ensures Inv(w')
  {
    DeliversCoupled(w, w', p);
    PopsOnly(w.side.client, p);
    assert Unserved(w') == Unserved(w);
    hide Run, Watched, Coupled, Handle1, Unserved, Flying;
    forall id ensures EventsOk(w', id) && AnswersOk(w', id) {
      assert EventsOk(w, id) && AnswersOk(w, id);
      DeliversEvents(w, w', Handle1(w.side.client, p).effects, id);
      DeliversAnswers(w, w', Handle1(w.side.client, p).effects, id);
    }
    ServerFrame(w, w');
  }

  // ---------- The server answers a request ----------

  /** Registering `id` for `h`, or nothing for a request that does not subscribe. */
  function Joined(regs: map<Handle, seq<Id>>, joins: Option<Handle>, id: Id): map<Handle, seq<Id>> {
    match joins
    case None => regs
    case Some(h) => regs[h := (if h in regs then regs[h] else []) + [id]]
  }

  function Joins(req: Command, p: Packet): Option<Handle>
    requires ReplyOf(req.kind, p).Some? && |p.args| == p.ptype.ArgCount()
  {
    if p.ptype.JobCreated? && req.kind == Submit(true) then Some(p.args[0]) else None
  }

  lemma AcceptedSettles(c: Client, req: Command, rest: seq<Command>, p: Packet,
                        regs: map<Handle, seq<Id>>, closed: set<Id>)
    requires c.pending == [req] + rest && Mirrors(c.jobs, regs, closed)
    requires ReplyOf(req.kind, p).Some? && |p.args| == p.ptype.ArgCount()
    ensures Expected(c, p)
    ensures var o := Handle1(c, p);
      && o.effects == [Answer(req.id, ReplyOf(req.kind, p).value)]
      && o.client.pending == rest
      && Mirrors(o.client.jobs, Joined(regs, Joins(req, p), req.id), closed)
  {
    assert c.pending[0] == req;
    assert c.pending[1..] == rest;
  }

  lemma AcceptsCoupled(w: World, w': World, p: Packet, req: Command)
    requires Coupled(w) && w.toServer != [] && req == w.toServer[0]
    requires ReplyOf(req.kind, p).Some? && |p.args| == p.ptype.ArgCount()
    requires w'.side == w.side && w'.toServer == w.toServer[1..] && w'.toClient == w.toClient + [p]
    requires w'.regs == Joined(w.regs, Joins(req, p), req.id) && w'.closed == w.closed
    ensures Coupled(w')
    ensures Flying(w') == Flying(w) + [Answer(req.id, ReplyOf(req.kind, p).value)]
  {
    assert w.toServer == [req] + w.toServer[1..];
    AcceptedSettles(Settled(w), req, w.toServer[1..], p, w.regs, w.closed);
    RunConcat(w.side.client, w.toClient, [p]);
    AllExpectedConcat(w.side.client, w.toClient, [p]);
    RunOne(Settled(w), p);
    hide Run, AllExpected, Handle1, Expected, Joins, ReplyOf, Joined;
  }

  lemma RunOne(c: Client, p: Packet)
    ensures Run(c, [p]) == Handle1(c, p)
    ensures AllExpected(c, [p]) <==> Expected(c, p)
  {
    hide Handle1, Expected;
    var o := Handle1(c, p);
    assert Run(o.client, [p][1..]) == Outcome(o.client, []);
    assert o.effects + [] == o.effects;
    assert [p][1..] == [];
  }

  lemma AcceptsServer(w: World, w': World, joins: Option<Handle>, req: Command, reply: Reply)
    requires RegsAreActive(w) && IdsAreFresh(w) && w.toServer != [] && req == w.toServer[0]
    requires w'.side == w.side && w'.toServer == w.toServer[1..] && w'.issued == w.issued && w'.past == w.past
    requires w'.regs == Joined(w.regs, joins, req.id) && w'.served == w.served[req.id := reply]
    requires w'.history == w.history + if joins.None? then [] else [Registered(req.id, joins.value)]
    ensures RegsAreActive(w') && IdsAreFresh(w')
  {
    hide Watched;
    assert req == Unserved(w)[0] && Unserved(w') == Unserved(w)[1..];
    assert Watched(w.history, req.id).status.NotYet?;
    if joins.None? {
      assert w'.history == w.history;
    } else {
      forall id ensures Watched(w'.history, id)
                     == if id == req.id then Watch(Active(joins.value), Watched(w.history, id).events)
                        else Watched(w.history, id) {
        WatchedStep(w.history, Registered(req.id, joins.value), id);
      }
    }
  }

  lemma AcceptsTracked(w: World, w': World, joins: Option<Handle>, req: Command, reply: Reply, id: Id)
    requires EventsOk(w, id) && AnswersOk(w, id)
    requires req.id !in w.past && req.id !in w.served && Watched(w.history, req.id).status.NotYet?
    requires Flying(w') == Flying(w) + [Answer(req.id, reply)] && w'.served == w.served[req.id := reply]
    requires w'.past == w.past && w'.closed == w.closed && w'.inboxes == w.inboxes && w'.done == w.done
    requires w'.history == w.history + if joins.None? then [] else [Registered(req.id, joins.value)]
    ensures EventsOk(w', id) && AnswersOk(w', id)
  {
    var f := [Answer(req.id, reply)];
    EventsConcat(Flying(w), f, id);
    AnswersConcat(Flying(w), f, id);
    assert EventsFor(f, id) == [] && AnswersFor(f, id) == if id == req.id then [reply] else [];
    if joins.None? {
      assert w'.history == w.history;
    } else {
      WatchedStep(w.history, Registered(req.id, joins.value), id);
    }
    hide Run, Watched, Flying, EventsFor, AnswersFor, EventsOk, AnswersOk;
    AcceptedEvents(w, w', joins, req, reply, id);
    AcceptedAnswers(w, w', req, reply, id);
  }

  lemma AcceptedAnswers(w: World, w': World, req: Command, reply: Reply, id: Id)
    requires AnswersOk(w, id) && req.id !in w.past && req.id !in w.served
    requires AnswersFor(Flying(w'), id) == AnswersFor(Flying(w), id) + if id == req.id then [reply] else []
    requires w'.past == w.past && w'.done == w.done && w'.served == w.served[req.id := reply]
    ensures AnswersOk(w', id)
  {
    hide Run, Flying, AnswersFor;
    Assoc(AnswersFor(w.done, id), AnswersFor(Flying(w), id), if id == req.id then [reply] else []);
  }

  lemma AcceptedEvents(w: World, w': World, joins: Option<Handle>, req: Command, reply: Reply, id: Id)
    requires EventsOk(w, id) && EventsFor(Flying(w'), id) == EventsFor(Flying(w), id) + []
    requires Watched(w'.history, id).events == Watched(w.history, id).events
    requires Watched(w'.history, id) == Watched(w.history, id) || id == req.id
    requires req.id !in w.past
    requires w'.past == w.past && w'.closed == w.closed && w'.inboxes == w.inboxes
    ensures EventsOk(w', id)
  {
    hide Run, Watched, Flying, EventsFor;
    assert EventsFor(Flying(w), id) + [] == EventsFor(Flying(w), id);
  }

  lemma AcceptsKeeps(w: World, w': World, p: Packet, req: Command)
    requires Inv(w) && w.toServer != [] && req == w.toServer[0]
    requires ReplyOf(req.kind, p).Some? && |p.args| == p.ptype.ArgCount()
    requires var joins := Joins(req, p);
      w' == w.(toServer := w.toServer[1..], toClient := w.toClient + [p],
               served := w.served[req.id := ReplyOf(req.kind, p).value], regs := Joined(w.regs, joins, req.id),
               history := w.history + if joins.None? then [] else [Registered(req.id, joins.value)])
    ensures Inv(w')
  {
    AcceptsCoupled(w, w', p, req);
    hide Run, Watched, Coupled, Joined, Joins, ReplyOf, Flying;
    AcceptsServer(w, w', Joins(req, p), req, ReplyOf(req.kind, p).value);
    assert req == Unserved(w)[0];
    forall id ensures EventsOk(w', id) && AnswersOk(w', id) {
      assert EventsOk(w, id) && AnswersOk(w, id);
      AcceptsTracked(w, w', Joins(req, p), req, ReplyOf(req.kind, p).value, id);
    }
  }

  // ---------- The server broadcasts an event ----------

  /** Whatever its kind, a round visits every slot once. */
  lemma RoundVisitsAll(s: Subs, terminal: bool)
    requires s.cursor < |s.slots|
    ensures multiset(Targets(s, terminal, |s.slots|)) == multiset(s.slots)
    ensures DeliverN(s, terminal, |s.slots|) == if terminal then Subs([], 0) else s
  {
    hide DeliverN, Targets;
    if terminal {
      TerminalRound(s, |s.slots|);
    } else {
      Round(s);
      assert s.slots == s.slots[..s.cursor] + s.slots[s.cursor..];
    }
  }

  lemma {:induction false} CopiesExpected(c: Client, p: Packet, n: nat)
    requires IsWork(p.ptype) && |p.args| > 0
    requires n == 0 || (p.args[0] in c.jobs && var s := c.jobs[p.args[0]]; s.cursor < |s.slots| && n <= |s.slots|)
    ensures AllExpected(c, Copies(p, n))
    decreases n
  {
    if n > 0 {
      var ps := Copies(p, n);
      assert ps[0] == p && ps[1..] == Copies(p, n - 1);
      CopiesExpected(Handle1(c, p).client, p, n - 1);
    }
  }

  /** An open stream holds as many slots as it holds registrations. */
  lemma {:induction false} MirrorsCounts(slots: seq<Option<Id>>, regs: seq<Id>, closed: set<Id>, id: Id)
    requires MirrorsSlots(slots, regs, closed) && id !in closed
    ensures multiset(slots)[Some(id)] == multiset(regs)[id]
  {
    if slots != [] {
      MirrorsCounts(slots[1..], regs[1..], closed, id);
      assert slots == [slots[0]] + slots[1..] && regs == [regs[0]] + regs[1..];
    }
  }

  lemma {:induction false} CountsAtMostOnce(regs: seq<Id>, id: Id)
    requires forall i, j :: 0 <= i < j < |regs| ==> regs[i] != regs[j]
    ensures multiset(regs)[id] == if id in regs then 1 else 0
  {
    if regs != [] {
      CountsAtMostOnce(regs[1..], id);
      assert regs == [regs[0]] + regs[1..];
    }
  }

  function RegsAfter(regs: map<Handle, seq<Id>>, h: Handle, terminal: bool): map<Handle, seq<Id>> {
    if terminal then regs - {h} else regs
  }

  /** A client at rest handles one round: each open stream gets one copy per registration. */
  lemma RoundSettles(c: Client, regs: map<Handle, seq<Id>>, closed: set<Id>, p: Packet, h: Handle, terminal: bool)
    returns (targets: seq<Option<Id>>)
    requires Mirrors(c.jobs, regs, closed) && IsWork(p.ptype) && |p.args| > 0 && h == p.args[0]
    requires terminal == EventOf(p).Terminal()
    ensures var ps := Copies(p, |RegsOf(regs, h)|);
      && AllExpected(c, ps)
      && Run(c, ps).effects == Sends(targets, EventOf(p))
      && Run(c, ps).client.pending == c.pending
      && Mirrors(Run(c, ps).client.jobs, RegsAfter(regs, h, terminal), closed)
    ensures forall id :: id !in closed ==> multiset(targets)[Some(id)] == multiset(RegsOf(regs, h))[id]
  {
    hide DeliverN, Targets, Run, AllExpected, EventOf, Handle1;
    var n := |RegsOf(regs, h)|;
    CopiesExpected(c, p, n);
    if h in regs {
      RunCopies(c, p, n);
      RoundVisitsAll(c.jobs[h], terminal);
      targets := Targets(c.jobs[h], terminal, n);
      forall id | id !in closed ensures multiset(targets)[Some(id)] == multiset(regs[h])[id] {
        MirrorsCounts(c.jobs[h].slots, regs[h], closed, id);
      }
    } else {
      LastCopy(c);
      targets := [];
    }
  }

  lemma BroadcastsCoupled(w: World, w': World, p: Packet, h: Handle, terminal: bool) returns (targets: seq<Option<Id>>)
    requires Coupled(w) && w.side.phase.Connected? && IsWork(p.ptype) && |p.args| > 0 && h == p.args[0]
    requires terminal == EventOf(p).Terminal()
    requires w'.side == w.side && w'.toServer == w.toServer && w'.closed == w.closed
    requires w'.toClient == w.toClient + Copies(p, |RegsOf(w.regs, h)|)
    requires w'.regs == RegsAfter(w.regs, h, terminal)
    ensures Coupled(w') && Flying(w') == Flying(w) + Sends(targets, EventOf(p))
    ensures forall id :: id !in w.closed ==> multiset(targets)[Some(id)] == multiset(RegsOf(w.regs, h))[id]
  {
    var ps := Copies(p, |RegsOf(w.regs, h)|);
    RunConcat(w.side.client, w.toClient, ps);
    AllExpectedConcat(w.side.client, w.toClient, ps);
    targets := RoundSettles(Settled(w), w.regs, w.closed, p, h, terminal);
    hide Run, AllExpected, EventOf, Mirrors;
  }

  lemma BroadcastsServer(w: World, w': World, h: Handle, e: JobEvent)
    requires RegsAreActive(w) && IdsAreFresh(w)
    requires w'.regs == RegsAfter(w.regs, h, e.Terminal()) && w'.history == w.history + [Broadcast(h, e)]
    requires w'.side == w.side && w'.toServer == w.toServer
    requires w'.issued == w.issued && w'.past == w.past && w'.served == w.served
    ensures RegsAreActive(w') && IdsAreFresh(w')
  {
    hide Watched;
    assert Unserved(w') == Unserved(w);
    forall id ensures Watched(w'.history, id) == Next(Watched(w.history, id), id, Broadcast(h, e)) {
      WatchedStep(w.history, Broadcast(h, e), id);
    }
  }

  lemma RoundPerId(w: World, h: Handle, e: JobEvent, targets: seq<Option<Id>>, id: Id)
    requires RegsAreActive(w) && id !in w.closed
    requires multiset(targets)[Some(id)] == multiset(RegsOf(w.regs, h))[id]
    ensures EventsFor(Sends(targets, e), id) == if Watched(w.history, id).status == Active(h) then [e] else []
  {
    hide Watched, Run;
    SendsPerId(targets, e, id);
    CountsAtMostOnce(RegsOf(w.regs, h), id);
    assert Copies(e, 1) == [e];
  }

  lemma BroadcastsTracked(w: World, w': World, h: Handle, e: JobEvent, fs: seq<Effect>, id: Id)
    requires EventsOk(w, id) && AnswersOk(w, id)
    requires Flying(w') == Flying(w) + fs && w'.history == w.history + [Broadcast(h, e)]
    requires id !in w.closed ==> EventsFor(fs, id) == if Watched(w.history, id).status == Active(h) then [e] else []
    requires AnswersFor(fs, id) == []
    requires w'.past == w.past && w'.closed == w.closed && w'.inboxes == w.inboxes
    requires w'.done == w.done && w'.served == w.served
    ensures EventsOk(w', id) && AnswersOk(w', id)
  {
    EventsConcat(Flying(w), fs, id);
    AnswersConcat(Flying(w), fs, id);
    WatchedStep(w.history, Broadcast(h, e), id);
    hide Run, Watched, Flying, EventsFor, AnswersFor;
    assert w.Inbox(id) + (EventsFor(Flying(w), id) + EventsFor(fs, id))
        == (w.Inbox(id) + EventsFor(Flying(w), id)) + EventsFor(fs, id);
  }

  lemma BroadcastsKeeps(w: World, w': World, p: Packet, h: Handle, e: JobEvent)
    requires Inv(w) && w.side.phase.Connected? && IsWork(p.ptype) && |p.args| > 0
    requires h == p.args[0] && e == EventOf(p)
    requires w' == w.(toClient := w.toClient + Copies(p, |RegsOf(w.regs, h)|),
                      history := w.history + [Broadcast(h, e)], regs := RegsAfter(w.regs, h, e.Terminal()))
    ensures Inv(w')
  {
    var targets := BroadcastsCoupled(w, w', p, h, e.Terminal());
    hide Run, Watched, Coupled, Flying, EventOf;
    BroadcastsServer(w, w', h, e);
    forall id ensures EventsOk(w', id) && AnswersOk(w', id) {
      assert EventsOk(w, id) && AnswersOk(w, id);
      if id !in w.closed {
        RoundPerId(w, h, e, targets, id);
      }
      SendsPerId(targets, e, id);
      BroadcastsTracked(w, w', h, e, Sends(targets, e), id);
    }
  }

  // ---------- The connection ends ----------

  lemma {:induction false} FailAllPerId(pending: seq<Command>, id: Id)
    ensures EventsFor(FailAll(pending), id) == []
    ensures forall r <- AnswersFor(FailAll(pending), id) :: r.ConnectionClosed?
    ensures (forall p <- pending :: p.id != id) ==> AnswersFor(FailAll(pending), id) == []
  {
    if pending != [] {
      FailAllPerId(pending[1..], id);
    }
  }

  lemma BrokenWatches(w: World, w': World)
    requires w'.history == w.history + [ConnectionEnded]
    ensures forall id :: Watched(w'.history, id) == Next(Watched(w.history, id), id, ConnectionEnded)
  {
    forall id ensures Watched(w'.history, id) == Next(Watched(w.history, id), id, ConnectionEnded) {
      WatchedStep(w.history, ConnectionEnded, id);
    }
  }

  lemma QueueIsFresh(w: World, k: nat)
    requires IdsAreFresh(w) && k <= |w.side.queue|
    ensures DistinctIds(w.side.queue[k..]) && forall c <- w.side.queue[k..] :: Untouched(w, c.id)
  {
    hide Untouched;
    assert w.side.queue[k..] == Unserved(w)[|w.toServer| + k..];
    DistinctSuffix(Unserved(w), |w.toServer| + k);
  }

  lemma BrokenUntouched(w: World, w': World, id: Id)
    requires w'.history == w.history + [ConnectionEnded] && w'.issued == w.issued && w'.served == w.served
    requires Watched(w.history, id).status.NotYet?
    ensures Watched(w'.history, id).status.NotYet?
    ensures Untouched(w, id) && id !in w'.past ==> Untouched(w', id)
  {
    WatchedStep(w.history, ConnectionEnded, id);
    hide Watched;
  }

  lemma BrokenIds(w: World, w': World, k: nat)
    requires IdsAreFresh(w) && w'.toServer == [] && w'.history == w.history + [ConnectionEnded]
    requires k <= |w.side.queue| && w'.side.queue == w.side.queue[k..]
    requires w'.issued == w.issued && w'.served == w.served && w'.past == w.issued - CommandIds(w'.side.queue)
    ensures IdsAreFresh(w')
  {
    QueueIsFresh(w, k);
    var q := w'.side.queue;
    assert Unserved(w') == q;
    hide Watched, Unserved, DistinctIds;
    forall c | c in q ensures Untouched(w', c.id) {
      assert c.id in CommandIds(q);
      BrokenUntouched(w, w', c.id);
    }
    forall id | id !in w.issued ensures id !in w'.served && Watched(w'.history, id).status.NotYet? {
      BrokenUntouched(w, w', id);
    }
  }

  lemma DistinctSuffix(q: seq<Command>, k: nat)
    requires k <= |q| && DistinctIds(q)
    ensures DistinctIds(q[k..]) && forall c <- q[k..] :: c in q
  {
  }

  lemma BrokenEvents(w: World, w': World, fs: seq<Effect>, id: Id)
    requires EventsOk(w, id) && Posted(w, w', fs) && w'.history == w.history + [ConnectionEnded]
    requires Flying(w') == [] && w'.closed == w.closed && EventsFor(fs, id) == []
    requires id !in w'.past ==> Watched(w.history, id).status.NotYet?
    ensures EventsOk(w', id)
  {
    WatchedStep(w.history, ConnectionEnded, id);
    NotYetIsEmpty(w.history, id);
    assert EventsFor([], id) == [];
    hide Run, Watched, Flying, EventsFor;
    assert w.Inbox(id) + [] == w.Inbox(id);
  }

  lemma BrokenAnswers(w: World, w': World, fs: seq<Effect>, id: Id)
    requires AnswersOk(w, id) && w'.done == w.done + fs && w'.served == w.served && Flying(w') == []
    requires forall r <- AnswersFor(fs, id) :: r.ConnectionClosed? || r.SendFailed?
    requires id !in w'.past ==> id !in w.past && id !in w.served && AnswersFor(fs, id) == []
    ensures AnswersOk(w', id)
  {
    AnswersConcat(w.done, fs, id);
    assert AnswersFor([], id) == [];
    hide Run, Flying, AnswersFor;
    var given := AnswersFor(w.done, id);
    if id !in w.past {
      assert forall r <- given :: r in given + AnswersFor(Flying(w), id);
    }
  }

  lemma BrokenKeeps(w: World, w': World, fs: seq<Effect>, k: nat)
    requires Inv(w) && k <= |w.side.queue|
    requires w'.side.queue == w.side.queue[k..] && w'.side.client == Fresh && !w'.side.phase.Connected?
    requires w' == w.(side := w'.side, toServer := [], toClient := [],
                      regs := map[], history := w.history + [ConnectionEnded],
                      past := w.issued - CommandIds(w.side.queue[k..]), done := w'.done, inboxes := w'.inboxes)
    requires Posted(w, w', fs)
    requires forall id ::
      EventsFor(fs, id) == [] && forall r <- AnswersFor(fs, id) :: r.ConnectionClosed? || r.SendFailed?
    requires forall id :: id in CommandIds(w.side.queue[k..]) || id !in w.issued ==> AnswersFor(fs, id) == []
    ensures Inv(w')
  {
    BrokenIds(w, w', k);
    assert RegsAreActive(w') by {
      BrokenWatches(w, w');
    }
    hide Watched, EventsFor, AnswersFor, RegsAreActive, IdsAreFresh, EventsOk, AnswersOk;
    forall id ensures EventsOk(w', id) && AnswersOk(w', id) {
      assert EventsOk(w, id) && AnswersOk(w, id);
      if id !in w'.past {
        NotPastIsFresh(w, id, k);
      }
      BrokenEvents(w, w', fs, id);
      BrokenAnswers(w, w', fs, id);
    }
  }

  lemma NotPastIsFresh(w: World, id: Id, k: nat)
    requires IdsAreFresh(w) && k <= |w.side.queue| && id !in w.issued - CommandIds(w.side.queue[k..])
    ensures id !in w.past && id !in w.served && Watched(w.history, id).status.NotYet?
  {
    hide Watched;
    if id in w.issued {
      QueueIsFresh(w, k);
    }
  }

  lemma {:induction false} NotYetIsEmpty(history: seq<Happening>, id: Id)
    ensures Watched(history, id).status.NotYet? ==> Watched(history, id).events == []
  {
    if history != [] {
      NotYetIsEmpty(history[..|history| - 1], id);
    }
  }

  lemma MovePosts(w: World, input: Input)
    ensures Posted(w, Move(w, input), SideStep(w.side, input).effects)
  {
    forall id {
      MoveInbox(w, input, id);
    }
  }

  lemma TakeFailsPerId(w: World, cmd: Command, fs: seq<Effect>, id: Id)
    requires IdsAreFresh(w) && PendingIsTaken(w) && w.side.queue != [] && cmd == w.side.queue[0]
    requires fs == [Answer(cmd.id, SendFailed)] + FailAll(w.side.client.pending)
    ensures EventsFor(fs, id) == [] && forall r <- AnswersFor(fs, id) :: r.ConnectionClosed? || r.SendFailed?
    ensures id in CommandIds(w.side.queue[1..]) || id !in w.issued ==> AnswersFor(fs, id) == []
  {
    hide Watched;
    DistinctSuffix(Unserved(w), |w.toServer|);
    assert Unserved(w)[|w.toServer|..] == w.side.queue;
    assert cmd in Unserved(w) && Untouched(w, cmd.id);
    assert fs[1..] == FailAll(w.side.client.pending);
    FailAllPerId(w.side.client.pending, id);
  }

  lemma TakeFailsKeeps(w: World)
    requires Inv(w) && Enabled(w, Takes(false))
    ensures Inv(Apply(w, Takes(false)))
  {
    var w', cmd := Apply(w, Takes(false)), w.side.queue[0];
    var fs := [Answer(cmd.id, SendFailed)] + FailAll(w.side.client.pending);
    MovePosts(w, Take(false));
    forall id {
      TakeFailsPerId(w, cmd, fs, id);
    }
    BrokenKeeps(w, w', fs, 1);
  }

  lemma BreaksKeeps(w: World, s: Step)
    requires Inv(w) && Enabled(w, s) && (s.Breaks? || s.Quits?)
    ensures Inv(Apply(w, s))
  {
    MovePosts(w, if s.Breaks? then Lost else HandlesGone);
    forall id {
      FailAllPerId(w.side.client.pending, id);
    }
    assert w.side.queue[0..] == w.side.queue;
    BrokenKeeps(w, Apply(w, s), FailAll(w.side.client.pending), 0);
  }

  lemma ReceiveKeeps(w: World)
    requires Inv(w) && Enabled(w, Delivers)
    ensures Inv(Apply(w, Delivers))
  {
    var p := w.toClient[0];
    assert w.side.phase.Connected?;
    hide Inv;
    MovePosts(w, Receive(p));
    DeliversKeeps(w, Apply(w, Delivers), p);
  }

  lemma QuietKeeps(w: World, s: Step)
    requires Inv(w) && Enabled(w, s) && (s.Submits? || s.Connects? || s.Sweeps? || s == Takes(true))
    ensures Inv(Apply(w, s))
  {
    hide Inv;
    var w' := Apply(w, s);
    match s {
      case Submits(cmd) => NoEffects(w, Enqueue(cmd)); SubmitsKeeps(w, w', cmd);
      case Connects(ok) => NoEffects(w, Connect(ok)); if ok { ConnectsKeeps(w, w'); }
      case Takes(_) => NoEffects(w, Take(true)); TakesKeeps(w, w', w.side.queue[0]);
      case Sweeps => NoEffects(w, PruneTick(w.closed)); SweepsKeeps(w, w');
    }
  }

  lemma StepKeeps(w: World, s: Step)
    requires Inv(w) && Enabled(w, s)
    ensures Inv(Apply(w, s))
  {
    hide Inv;
    match s {
      case Takes(sent) => if sent { QuietKeeps(w, s); } else { TakeFailsKeeps(w); }
      case Accepts(p) => AcceptsKeeps(w, Apply(w, s), p, w.toServer[0]);
      case Broadcasts(p) => BroadcastsKeeps(w, Apply(w, s), p, p.args[0], EventOf(p));
      case Delivers => ReceiveKeeps(w);
      case Abandons(id) => AbandonsKeeps(w, Apply(w, s), id);
      case Breaks => BreaksKeeps(w, s);
      case Quits => BreaksKeeps(w, s);
      case _ => QuietKeeps(w, s);
    }
  }

  /** The coupling invariant holds in every state any run can reach. */
  lemma {:induction false} Coupling(w: World, steps: seq<Step>)
    requires Inv(w) && Legal(w, steps)
    ensures Inv(After(w, steps))
    decreases |steps|
  {
    if steps != [] {
      StepKeeps(w, steps[0]);
      Coupling(Apply(w, steps[0]), steps[1..]);
    }
  }
}
