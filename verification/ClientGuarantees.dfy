/**
 What a caller can rely on in every run: consequences of the coupling invariant of
 ClientTheorems, and laws of the client side that need no assumption about the server.
 */
module ClientGuarantees {
  import opened Wrappers
  import opened Protocol
  import opened ClientCore
  import opened ClientSide
  import opened ClientRuns
  import opened ClientTheorems

  // ---------- Event streams ----------

  /** What a stream is owed ends with its first terminal event, if it has one. */
  lemma {:induction false} OwedEndsWithTerminal(history: seq<Happening>, id: Id)
    ensures var owed := Watched(history, id);
      && (forall i :: 0 <= i < |owed.events| - 1 ==> !owed.events[i].Terminal())
      && (owed.events != [] && owed.events[|owed.events| - 1].Terminal() ==> owed.status.Over?)
      && (owed.status.NotYet? <==> forall h :: Registered(id, h) !in history)
  {
    if history != [] {
      var init := history[..|history| - 1];
      OwedEndsWithTerminal(init, id);
      assert history == init + [history[|history| - 1]];
    }
  }

  /** `Delivers` n times. */
  function Deliveries(n: nat): seq<Step> {
    Copies(Delivers, n)
  }

  lemma {:induction false} DeliveriesDrain(w: World)
    ensures Legal(w, Deliveries(|w.toClient|))
    ensures var w' := After(w, Deliveries(|w.toClient|));
      w'.toClient == [] && w'.history == w.history && w'.closed == w.closed && w'.past == w.past && w'.regs == w.regs
    decreases |w.toClient|
  {
    hide SideStep, Post;
    if w.toClient != [] {
      var d := Deliveries(|w.toClient|);
      assert d[0] == Delivers && d[1..] == Deliveries(|w.toClient| - 1);
      DeliveriesDrain(Apply(w, Delivers));
    }
  }

  /**
   Exactly once, in order. In every state of every run: a stream has received a prefix of what it
   is owed; it has received all of it if it has received a terminal event, whatever happened to
   the connection; and an open stream of the current connection has received all of it once the
   client has read what is on the wire.
   */
  lemma ExactlyOnce(steps: seq<Step>, id: Id)
    requires Legal(Init, steps)
    ensures var w := After(Init, steps);
      var owed, got := Watched(w.history, id).events, w.Inbox(id);
      && got <= owed
      && (forall i :: 0 <= i < |owed| - 1 ==> !owed[i].Terminal())
      && ((exists e <- got :: e.Terminal()) ==> got == owed)
      && (id !in w.closed + w.past && w.toClient == [] ==> got == owed)
  {
    InitHolds();
    Coupling(Init, steps);
    var w := After(Init, steps);
    assert EventsOk(w, id);
    hide After, Legal, Coupled, RegsAreActive, IdsAreFresh, PendingIsTaken, Tracked;
    OwedEndsWithTerminal(w.history, id);
    NothingFlies(w, id);
    hide Watched, EventsOk;
    PrefixWithTerminal(w.Inbox(id), Watched(w.history, id).events);
  }

  /** What EventsOk says of a stream alone, and when the wire is empty. */
  lemma NothingFlies(w: World, id: Id)
    requires EventsOk(w, id)
    ensures w.Inbox(id) <= Watched(w.history, id).events
    ensures id !in w.closed + w.past && w.toClient == [] ==> w.Inbox(id) == Watched(w.history, id).events
  {
    hide Watched;
    if w.toClient == [] {
      assert Flying(w) == [] && w.Inbox(id) + [] == w.Inbox(id);
    }
  }

  lemma PrefixWithTerminal(got: seq<JobEvent>, owed: seq<JobEvent>)
    requires got <= owed && forall i :: 0 <= i < |owed| - 1 ==> !owed[i].Terminal()
    ensures (exists e <- got :: e.Terminal()) ==> got == owed
  {
    if e :| e in got && e.Terminal() {
      var i :| 0 <= i < |got| && got[i] == e;
      assert owed[i] == e;
    }
  }

  /**
   From any state of any run, an open stream of the current connection gets all that it is owed:
   once the packets now on the wire are handled, its events are exactly those broadcast so far.
   */
  lemma NothingIsStranded(steps: seq<Step>, id: Id)
    requires Legal(Init, steps)
    ensures var w := After(Init, steps);
      && Legal(w, Deliveries(|w.toClient|))
      && (id !in w.closed + w.past ==>
            After(w, Deliveries(|w.toClient|)).Inbox(id) == Watched(w.history, id).events)
  {
    InitHolds();
    Coupling(Init, steps);
    var w := After(Init, steps);
    DeliveriesDrain(w);
    Coupling(w, Deliveries(|w.toClient|));
    var w' := After(w, Deliveries(|w.toClient|));
    assert EventsOk(w', id);
    assert w'.Inbox(id) + [] == w'.Inbox(id);
  }

  // ---------- Replies ----------

  /**
   FIFO pairing: the next packet on the wire finds a request of its own kind at the front of the
   queue or a slot waiting for the event, and a JOB_CREATED finds its job between rounds.
   */
  lemma FifoPairing(steps: seq<Step>)
    requires Legal(Init, steps)
    ensures var w := After(Init, steps);
      w.toClient != [] ==>
        var c, p := w.side.client, w.toClient[0];
        && Expected(c, p)
        && (IsReply(p.ptype) ==> c.pending != [] && ReplyOf(c.pending[0].kind, p).Some?)
        && (p.ptype.JobCreated? && p.args[0] in c.jobs ==> c.jobs[p.args[0]].cursor == 0)
        && (forall f <- Handle1(c, p).effects :: !f.Dropped?)
  {
    InitHolds();
    Coupling(Init, steps);
  }

  /** Each caller gets the server's reply to its own request, at most once, or news of a lost connection. */
  lemma OwnReply(steps: seq<Step>, id: Id)
    requires Legal(Init, steps)
    ensures var w := After(Init, steps);
      && (forall r <- AnswersFor(w.done, id) :: Allowed(w, id, r))
      && (id !in w.past ==> AnswersFor(w.done, id) <= ServedTo(w, id))
      && (id !in w.past && w.toClient == [] ==> AnswersFor(w.done, id) == ServedTo(w, id))
  {
    InitHolds();
    Coupling(Init, steps);
    var w := After(Init, steps);
    assert AnswersOk(w, id);
    var given := AnswersFor(w.done, id);
    if id !in w.past {
      assert forall r <- given :: r in given + AnswersFor(Flying(w), id);
      assert given + [] == given;
    }
  }

  // ---------- Slots ----------

  /**
   With nothing on the wire the client's slots are the server's registrations, job by job and in
   order, with the cursor at rest; a slot is empty only if its stream was dropped.
   */
  lemma SlotsAreRegistrations(steps: seq<Step>)
    requires Legal(Init, steps) && After(Init, steps).toClient == []
    ensures var w := After(Init, steps);
      && w.side.client.jobs.Keys == w.regs.Keys
      && w.side.client.pending == w.toServer
      && forall h <- w.regs :: w.side.client.jobs[h].cursor == 0
           && MirrorsSlots(w.side.client.jobs[h].slots, w.regs[h], w.closed)
  {
    InitHolds();
    Coupling(Init, steps);
  }

  // ---------- Pruning is invisible ----------

  /** The same inputs without the sweeps. */
  function Unswept(inputs: seq<Input>): seq<Input> {
    if inputs == [] then [] else (if inputs[0].PruneTick? then [] else [inputs[0]]) + Unswept(inputs[1..])
  }

  /** `b` differs from `a` only by slots emptied for streams of `closed`. */
  predicate SweptSide(a: Side, b: Side, closed: set<Id>) {
    a.queue == b.queue && a.phase == b.phase && SweptClient(a.client, b.client, closed)
  }

  lemma SweptStep(a: Side, b: Side, input: Input, closed: set<Id>)
    requires SweptSide(a, b, closed) && !input.PruneTick?
    ensures SweptSide(SideStep(a, input).side, SideStep(b, input).side, closed)
    ensures SameForOpen(SideStep(a, input).effects, SideStep(b, input).effects, closed)
  {
    if input.Receive? {
      SweptHandle1(a.client, b.client, input.packet, closed);
      hide Handle1;
    }
  }

  lemma SweepStep(a: Side, b: Side, swept: set<Id>, closed: set<Id>)
    requires SweptSide(a, b, closed) && swept <= closed
    ensures SweptSide(a, SideStep(b, PruneTick(swept)).side, closed)
    ensures SideStep(b, PruneTick(swept)).effects == []
  {
  }

  /**
   Sweeps at any points of a run, with any packets from the server, leave every open stream's
   events, every reply, every slot count and every cursor as they are in the run without sweeps.
   */
  lemma {:induction false} PruningIsInvisible(a: Side, b: Side, inputs: seq<Input>, closed: set<Id>)
    requires SweptSide(a, b, closed)
    requires forall x <- inputs :: x.PruneTick? ==> x.closed <= closed
    ensures var u, v := SideRun(a, Unswept(inputs)), SideRun(b, inputs);
      SweptSide(u.side, v.side, closed) && SameForOpen(u.effects, v.effects, closed)
    decreases |inputs|
  {
    hide SideStep, SweptSide;
    if inputs != [] {
      var x, rest := inputs[0], Unswept(inputs[1..]);
      if x.PruneTick? {
        SweepStep(a, b, x.closed, closed);
        PruningIsInvisible(a, SideStep(b, x).side, inputs[1..], closed);
        var later := SideRun(SideStep(b, x).side, inputs[1..]);
        assert [] + rest == rest && [] + later.effects == later.effects;
      } else {
        SweptStep(a, b, x, closed);
        var u, v := SideStep(a, x), SideStep(b, x);
        PruningIsInvisible(u.side, v.side, inputs[1..], closed);
        assert Unswept(inputs)[0] == x && Unswept(inputs)[1..] == rest;
        SameForOpenConcat(u.effects, v.effects,
                          SideRun(u.side, rest).effects, SideRun(v.side, inputs[1..]).effects, closed);
      }
    }
  }

  // ---------- Terminal rounds, whatever the server did before ----------

  /**
   For any job with n slots and any cursor, n copies of a terminal event send it to each slot's
   stream once and remove the job with the last copy; after fewer copies the job is still there.
   */
  lemma TerminalCopiesRetireTheJob(c: Client, p: Packet, k: nat, id: Id)
    requires IsWork(p.ptype) && |p.args| > 0 && EventOf(p).Terminal() && p.args[0] in c.jobs
    requires var n := |c.jobs[p.args[0]].slots|; 0 < n && k <= n
    ensures var h, o := p.args[0], Run(c, Copies(p, k));
      var slots := c.jobs[h].slots;
      && (h in o.client.jobs <==> k < |slots|)
      && (k < |slots| ==> |o.client.jobs[h].slots| == |slots| - k)
      && (forall g :: g != h ==>
            (g in c.jobs <==> g in o.client.jobs) && (g in c.jobs ==> o.client.jobs[g] == c.jobs[g]))
      && (k == |slots| ==> EventsFor(o.effects, id) == Copies(EventOf(p), multiset(slots)[Some(id)]))
  {
    var s := c.jobs[p.args[0]];
    RunCopies(c, p, k);
    TerminalRound(s, k);
    SendsPerId(Targets(s, true, k), EventOf(p), id);
  }
}
