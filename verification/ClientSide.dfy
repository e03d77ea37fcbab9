/**
 One server actor over its whole life (src/client/mod.rs:463-690): connecting, taking commands
 from its channel, handling packets, losing the connection, starting over. Nothing is assumed
 about the server here.
 */
module ClientSide {
  import opened Wrappers
  import opened Protocol
  import opened ClientCore

  datatype Phase = Disconnected | Connected | Stopped

  datatype Side = Side(queue: seq<Command>, client: Client, phase: Phase)

  const Start := Side([], Fresh, Disconnected)

  datatype Input =
    | Enqueue(cmd: Command)        // a caller puts a command on the channel
    | Connect(ok: bool)            // a connection attempt, with its handshake, ends
    | Take(ok: bool)               // the actor takes the oldest command and sends its packet; ok if the write works
    | Receive(packet: Packet)
    | PruneTick(closed: set<Id>)   // the sweep; `closed` are the streams dropped by then
    | Lost                         // the peer closed the connection, or reading failed
    | HandlesGone                  // the channel is empty and no Client is left to fill it

  datatype SideOutcome = SideOutcome(side: Side, effects: seq<Effect>)

  /** The actor leaves its loop: whatever is pending fails, whatever is queued stays. */
  function Leave(s: Side, phase: Phase): SideOutcome {
    SideOutcome(Side(s.queue, Fresh, phase), FailAll(s.client.pending))
  }

  /** One turn of the actor's loop on a live connection. */
  function LoopStep(s: Side, input: Input): SideOutcome {
    match input
    case Take(ok) =>
      if s.queue == [] then SideOutcome(s, [])
      else
        var cmd, rest := s.queue[0], s.(queue := s.queue[1..]);
        if ok && cmd.fits then SideOutcome(rest.(client := s.client.Push(cmd)), [])
        else
          var left := Leave(rest, Disconnected);
          SideOutcome(left.side, [Answer(cmd.id, SendFailed)] + left.effects)
    case Receive(p) =>
      var o := Handle1(s.client, p);
      SideOutcome(s.(client := o.client), o.effects)
    case PruneTick(closed) => SideOutcome(s.(client := Prune(s.client, closed)), [])
    case Lost => Leave(s, Disconnected)
    case HandlesGone => if s.queue == [] then Leave(s, Stopped) else SideOutcome(s, [])
    case _ => SideOutcome(s, [])
  }

  /** One thing that happens; what the current phase does not wait for leaves no trace. */
  function SideStep(s: Side, input: Input): SideOutcome {
    if input.Enqueue? then SideOutcome(s.(queue := s.queue + [input.cmd]), [])
    else if s.phase.Connected? then LoopStep(s, input)
    else if s.phase.Disconnected? && input == Connect(true) then SideOutcome(s.(phase := Connected), [])
    else SideOutcome(s, [])
  }

  function SideRun(s: Side, inputs: seq<Input>): SideOutcome
    decreases |inputs|
  {
    if inputs == [] then SideOutcome(s, [])
    else
      var o := SideStep(s, inputs[0]);
      var rest := SideRun(o.side, inputs[1..]);
      SideOutcome(rest.side, o.effects + rest.effects)
  }

  // ---------- Conservation of commands ----------

  /** How often the command `id` is on the channel. */
  function Queued(q: seq<Command>, id: Id): nat {
    if q == [] then 0 else (if q[0].id == id then 1 else 0) + Queued(q[1..], id)
  }

  /** How often it waits for a reply. */
  function Waiting(q: seq<Command>, id: Id): nat {
    if q == [] then 0 else (if q[0].id == id then 1 else 0) + Waiting(q[1..], id)
  }

  /** How often its oneshot was used, or dropped unused. */
  function Resolved(fs: seq<Effect>, id: Id): nat {
    if fs == [] then 0 else (if !fs[0].Event? && fs[0].id == id then 1 else 0) + Resolved(fs[1..], id)
  }

  function Enqueued(inputs: seq<Input>): seq<Command> {
    if inputs == [] then [] else (if inputs[0].Enqueue? then [inputs[0].cmd] else []) + Enqueued(inputs[1..])
  }

  lemma {:induction false} QueuedConcat(a: seq<Command>, b: seq<Command>, id: Id)
    ensures Queued(a + b, id) == Queued(a, id) + Queued(b, id)
  {
    if a == [] {
      assert a + b == b;
    } else {
      QueuedConcat(a[1..], b, id);
      assert (a + b)[1..] == a[1..] + b;
    }
  }

  lemma {:induction false} WaitingSnoc(a: seq<Command>, p: Command, id: Id)
    ensures Waiting(a + [p], id) == Waiting(a, id) + if p.id == id then 1 else 0
  {
    if a == [] {
      assert a + [p] == [p];
    } else {
      WaitingSnoc(a[1..], p, id);
      assert (a + [p])[1..] == a[1..] + [p];
    }
  }

  lemma {:induction false} ResolvedConcat(a: seq<Effect>, b: seq<Effect>, id: Id)
    ensures Resolved(a + b, id) == Resolved(a, id) + Resolved(b, id)
  {
    if a == [] {
      assert a + b == b;
    } else {
      ResolvedConcat(a[1..], b, id);
      assert (a + b)[1..] == a[1..] + b;
    }
  }

  lemma {:induction false} FailAllResolves(pending: seq<Command>, id: Id)
    ensures Resolved(FailAll(pending), id) == Waiting(pending, id)
  {
    if pending != [] {
      FailAllResolves(pending[1..], id);
    }
  }

  lemma Handle1Resolves(c: Client, p: Packet, id: Id)
    ensures var o := Handle1(c, p);
      Waiting(c.pending, id) == Waiting(o.client.pending, id) + Resolved(o.effects, id)
  {
    assert forall f :: Resolved([f], id) == if !f.Event? && f.id == id then 1 else 0;
  }

  function Held(s: Side, id: Id): nat {
    Queued(s.queue, id) + Waiting(s.client.pending, id)
  }

  lemma StepConserves(s: Side, input: Input, id: Id)
    ensures var o := SideStep(s, input);
      Held(s, id) + Queued(Enqueued([input]), id) == Held(o.side, id) + Resolved(o.effects, id)
  {
    assert Enqueued([input]) == if input.Enqueue? then [input.cmd] else [];
    FailAllResolves(s.client.pending, id);
    match input {
      case Enqueue(cmd) => QueuedConcat(s.queue, [cmd], id);
      case Take(sent) =>
        if s.phase.Connected? && s.queue != [] {
          var cmd := s.queue[0];
          WaitingSnoc(s.client.pending, cmd, id);
          ResolvedConcat([Answer(cmd.id, SendFailed)], FailAll(s.client.pending), id);
        }
      case Receive(p) => Handle1Resolves(s.client, p, id);
      case _ =>
    }
  }

  /**
   Conservation, whatever the server sends and however often the connection breaks: a command put
   on the channel is still queued, or waiting for its reply, or resolved, as often as it was put there.
   */
  lemma {:induction false} CommandsAreConserved(s: Side, inputs: seq<Input>, id: Id)
    ensures var o := SideRun(s, inputs);
      Held(s, id) + Queued(Enqueued(inputs), id) == Held(o.side, id) + Resolved(o.effects, id)
    decreases |inputs|
  {
    hide SideStep, Held;
    if inputs != [] {
      var o := SideStep(s, inputs[0]);
      StepConserves(s, inputs[0], id);
      CommandsAreConserved(o.side, inputs[1..], id);
      ResolvedConcat(o.effects, SideRun(o.side, inputs[1..]).effects, id);
      assert Enqueued([inputs[0]]) == if inputs[0].Enqueue? then [inputs[0].cmd] else [];
      QueuedConcat(Enqueued([inputs[0]]), Enqueued(inputs[1..]), id);
    }
  }

  predicate AtRest(s: Side) {
    !s.phase.Connected? ==> s.client == Fresh
  }

  /**
   Commands leave the channel from the front and in no other way, so those not yet taken when a
   connection ends wait in order for the next; off a connection nothing is left waiting for a reply.
   */
  lemma {:induction false} QueueSurvives(s: Side, inputs: seq<Input>)
    requires AtRest(s)
    ensures var o := SideRun(s, inputs);
      && AtRest(o.side)
      && exists k :: 0 <= k <= |s.queue + Enqueued(inputs)| && o.side.queue == (s.queue + Enqueued(inputs))[k..]
    decreases |inputs|
  {
    hide SideStep, AtRest;
    if inputs == [] {
      assert s.queue + Enqueued(inputs) == s.queue;
      assert s.queue == (s.queue + Enqueued(inputs))[0..];
    } else {
      var o := SideStep(s, inputs[0]);
      var now := s.queue + Enqueued([inputs[0]]);
      var j := QueueStep(s, inputs[0]);
      QueueSurvives(o.side, inputs[1..]);
      var later := o.side.queue + Enqueued(inputs[1..]);
      var k :| 0 <= k <= |later| && SideRun(o.side, inputs[1..]).side.queue == later[k..];
      EnqueuedFirst(inputs);
      Assoc(s.queue, Enqueued([inputs[0]]), Enqueued(inputs[1..]));
      Suffix(now, Enqueued(inputs[1..]), j, k);
      hide Enqueued;
      assert SideRun(s, inputs).side.queue == (s.queue + Enqueued(inputs))[j + k..];
    }
  }

  lemma EnqueuedFirst(inputs: seq<Input>)
    requires inputs != []
    ensures Enqueued(inputs) == Enqueued([inputs[0]]) + Enqueued(inputs[1..])
  {
    assert Enqueued([inputs[0]]) == if inputs[0].Enqueue? then [inputs[0].cmd] else [];
  }

  lemma QueueStep(s: Side, input: Input) returns (j: nat)
    requires AtRest(s)
    ensures var o := SideStep(s, input);
      && AtRest(o.side)
      && j <= |s.queue + Enqueued([input])| && o.side.queue == (s.queue + Enqueued([input]))[j..]
  {
    var all := s.queue + Enqueued([input]);
    assert Enqueued([input]) == if input.Enqueue? then [input.cmd] else [];
    assert all[0..] == all;
    assert input.Enqueue? || all == s.queue;
    j := if SideStep(s, input).side.queue == all then 0 else 1;
  }

  /**
   The oneshot of a command issued once is used at most once; a command that has left the channel
   when there is no connection has been answered or dropped, exactly once.
   */
  lemma ResolvedAtMostOnce(inputs: seq<Input>, id: Id)
    requires Queued(Enqueued(inputs), id) == 1
    ensures var o := SideRun(Start, inputs);
      && Resolved(o.effects, id) <= 1
      && (Resolved(o.effects, id) == 1 ==> Held(o.side, id) == 0)
      && (!o.side.phase.Connected? && Queued(o.side.queue, id) == 0 ==> Resolved(o.effects, id) == 1)
  {
    CommandsAreConserved(Start, inputs, id);
    QueueSurvives(Start, inputs);
  }

  /** An actor stops only when no Client is left and its channel is empty; losing connections never stops it. */
  lemma {:induction false} StopsOnlyWithoutClients(s: Side, inputs: seq<Input>) returns (i: nat)
    requires !s.phase.Stopped? && SideRun(s, inputs).side.phase.Stopped?
    ensures i < |inputs| && inputs[i].HandlesGone?
    ensures SideRun(s, inputs[..i]).side.queue == [] && SideRun(s, inputs[..i]).side.phase.Connected?
    decreases |inputs|
  {
    var next := SideStep(s, inputs[0]).side;
    StopStep(s, inputs[0]);
    hide SideStep;
    if next.phase.Stopped? {
      i := 0;
    } else {
      var j := StopsOnlyWithoutClients(next, inputs[1..]);
      i := j + 1;
      assert inputs[..i][1..] == inputs[1..][..j] && inputs[..i][0] == inputs[0];
    }
  }

  lemma StopStep(s: Side, x: Input)
    requires !s.phase.Stopped?
    ensures SideStep(s, x).side.phase.Stopped? ==> x.HandlesGone? && s.queue == [] && s.phase.Connected?
  {
    hide Handle1, FailAll;
  }
}
