/**
 The connection actor as the source writes it: objects changed in place by loops
 (src/client/mod.rs:463-690). Each method is proved against the functions of ClientCore and
 ClientSide, so what ClientTheorems and ClientGuarantees prove of those holds of this code.
 */
module ClientActor {
  import opened Wrappers
  import opened Protocol
  import opened Decimal
  import opened ClientCore
  import opened ClientSide

  /** The sending halves of the callers' channels: what has been sent, in order. */
  class Outbox {
    var sent: seq<Effect>

    constructor ()
      ensures sent == []
    {
      sent := [];
    }

    method Put(f: Effect)
      modifies this
      ensures sent == old(sent) + [f]
    {
      sent := sent + [f];
    }
  }

  class HandleSubscribers {
    var slots: seq<Option<Id>>
    var cursor: nat

    ghost function View(): Subs
      reads this
    {
      Subs(slots, cursor)
    }

    constructor ()
      ensures View() == NoSubs
    {
      slots, cursor := [], 0;
    }

    method Add(id: Id)
      modifies this
      ensures View() == old(View()).Add(id)
    {
      slots := slots + [Some(id)];
    }

    /** Delivers one wire copy of an event; a terminal one retires the slot it goes to. */
    method Deliver(event: JobEvent, terminal: bool, out: Outbox) returns (remain: bool)
      modifies this, out
      ensures View() == old(View()).Deliver(terminal)
      ensures out.sent == old(out.sent) + Send(old(View()).Target(), event)
      ensures remain <==> View().slots != []
    {
      if slots == [] {
        return false;
      }
      if cursor >= |slots| {
        cursor := 0;
      }
      var slot := slots[cursor];
      if terminal {
        slots := SwapRemove(slots, cursor);
      } else {
        cursor := cursor + 1;
      }
      if slot.Some? {
        out.Put(Event(slot.value, event));
      }
      if cursor >= |slots| {
        cursor := 0;
      }
      return slots != [];
    }

    method Prune(closed: set<Id>)
      modifies this
      ensures View() == old(View()).Prune(closed)
    {
      for i := 0 to |slots|
        invariant cursor == old(cursor) && |slots| == |old(slots)|
        invariant forall j :: 0 <= j < i ==> slots[j] == old(View()).Prune(closed).slots[j]
        invariant forall j :: i <= j < |slots| ==> slots[j] == old(slots)[j]
      {
        if slots[i].Some? && slots[i].value in closed {
          slots := slots[i := None];
        }
      }
    }
  }

  class ServerActor {
    const out: Outbox
    var queue: seq<Command>
    var pendingReplies: seq<Command>
    var jobEvents: map<Handle, HandleSubscribers>
    var phase: Phase

    /** No two jobs share a subscriber list. */
    ghost predicate Valid()
      reads this`jobEvents
    {
      forall g, h :: g in jobEvents && h in jobEvents && g != h ==> jobEvents[g] != jobEvents[h]
    }

    ghost function Jobs(): map<Handle, Subs>
      reads this`jobEvents, jobEvents.Values
    {
      map h | h in jobEvents :: jobEvents[h].View()
    }

    ghost function View(): Client
      reads this, jobEvents.Values
    {
      Client(pendingReplies, Jobs())
    }

    ghost function SideView(): Side
      reads this, jobEvents.Values
    {
      Side(queue, View(), phase)
    }

    constructor ()
      ensures Valid() && SideView() == Start && out.sent == [] && fresh(out)
    {
      out := new Outbox();
      queue, pendingReplies, jobEvents, phase := [], [], map[], Disconnected;
    }

    method DispatchWorkEvent(p: Packet)
      requires Valid() && IsWork(p.ptype)
      modifies this`jobEvents, jobEvents.Values, out
      ensures Valid() && jobEvents.Values <= old(jobEvents.Values)
      ensures View() == Dispatch(old(View()), p).client
      ensures out.sent == old(out.sent) + Dispatch(old(View()), p).effects
    {
      hide EventOf, Subs.Deliver, Subs.Target, Subs.At, Send;
      if |p.args| == 0 {
        return;
      }
      var handle, event := p.args[0], EventOf(p);
      if handle in jobEvents {
        var subs := jobEvents[handle];
        var remain := subs.Deliver(event, event.Terminal(), out);
        ghost var t := old(Jobs())[handle].Deliver(event.Terminal());
        assert Jobs() == old(Jobs())[handle := t] && remain == (t.slots != []);
        if !remain {
          jobEvents := jobEvents - {handle};
          assert Jobs() == old(Jobs()) - {handle};
        }
      }
    }

    /** entry(handle).or_default().add(sender) */
    method Join(handle: Handle, id: Id)
      requires Valid()
      modifies this`jobEvents, jobEvents.Values
      ensures Valid() && fresh(jobEvents.Values - old(jobEvents.Values))
      ensures Jobs() == old(Jobs())[handle := old(View()).SubsOf(handle).Add(id)]
    {
      if handle !in jobEvents {
        var subs := new HandleSubscribers();
        jobEvents := jobEvents[handle := subs];
      }
      jobEvents[handle].Add(id);
    }

    method HandleIncoming(p: Packet)
      requires Valid()
      modifies this`pendingReplies, this`jobEvents, jobEvents.Values, out
      ensures Valid() && fresh(jobEvents.Values - old(jobEvents.Values))
      ensures View() == Handle1(old(View()), p).client
      ensures out.sent == old(out.sent) + Handle1(old(View()), p).effects
    {
      hide Dispatch;
      match p.ptype {
        case JobCreated =>
          JobCreatedArrives(p);
        case StatusRes =>
          StatusArrives(p, CommandKind.GetStatus, None);
        case StatusResUnique =>
          StatusArrives(p, CommandKind.GetStatusUnique, Parse(U32_MAX, p.ArgOrEmpty(5)));
        case Error =>
          ErrorArrives(p);
        case WorkStatus | WorkComplete | WorkFail | WorkData | WorkWarning | WorkException =>
          DispatchWorkEvent(p);
        case _ =>
      }
    }

    method JobCreatedArrives(p: Packet)
      requires Valid() && p.ptype.JobCreated?
      modifies this`pendingReplies, this`jobEvents, jobEvents.Values, out
      ensures Valid() && fresh(jobEvents.Values - old(jobEvents.Values))
      ensures View() == Handle1(old(View()), p).client
      ensures out.sent == old(out.sent) + Handle1(old(View()), p).effects
    {
      OnJobCreated(View(), p);
      hide Handle1, Subs.Add, PacketType.ArgCount, Client.SubsOf;
      var first := PopFront();
      if first.Some? && first.value.kind.Submit? {
        var handle := p.ArgOrEmpty(0);
        if first.value.kind.foreground {
          Join(handle, first.value.id);
        }
        assert View() == Handle1(old(View()), p).client;
        out.Put(Answer(first.value.id, Created(handle)));
      } else if first.Some? {
        out.Put(Dropped(first.value.id));
      }
    }

    method StatusArrives(p: Packet, kind: CommandKind, clientCount: Option<nat>)
      requires Valid()
      requires (p.ptype.StatusRes? && kind.GetStatus? && clientCount.None?)
            || (p.ptype.StatusResUnique? && kind.GetStatusUnique? && clientCount == Parse(U32_MAX, p.ArgOrEmpty(5)))
      modifies this`pendingReplies, out
      ensures View() == Handle1(old(View()), p).client
      ensures out.sent == old(out.sent) + Handle1(old(View()), p).effects
    {
      OnStatus(View(), p);
      hide Handle1, ParseStatus, Parse;
      var first := PopFront();
      if first.Some? && first.value.kind == kind {
        out.Put(Answer(first.value.id, StatusIs(ParseStatus(p, clientCount))));
      } else if first.Some? {
        out.Put(Dropped(first.value.id));
      }
    }

    method ErrorArrives(p: Packet)
      requires Valid() && p.ptype.Error?
      modifies this`pendingReplies, out
      ensures View() == Handle1(old(View()), p).client
      ensures out.sent == old(out.sent) + Handle1(old(View()), p).effects
    {
      var code, text := p.ArgOrEmpty(0), p.ArgOrEmpty(1);
      var first := PopFront();
      if first.Some? {
        out.Put(Answer(first.value.id, ServerError(code, text)));
      }
    }

    method PopFront() returns (first: Option<Command>)
      modifies this`pendingReplies
      ensures first == if old(pendingReplies) == [] then None else Some(old(pendingReplies)[0])
      ensures pendingReplies == if old(pendingReplies) == [] then [] else old(pendingReplies)[1..]
    {
      if pendingReplies == [] {
        return None;
      }
      first := Some(pendingReplies[0]);
      pendingReplies := pendingReplies[1..];
    }

    method PruneClosedSubscribers(closed: set<Id>)
      requires Valid()
      modifies jobEvents.Values
      ensures View() == Prune(old(View()), closed)
    {
      hide Subs.Prune;
      var left := jobEvents.Keys;
      while left != {}
        invariant left <= jobEvents.Keys
        invariant forall h :: h in jobEvents && h !in left ==> jobEvents[h].View() == old(Jobs())[h].Prune(closed)
        invariant forall h :: h in left ==> jobEvents[h].View() == old(Jobs())[h]
      {
        var h :| h in left;
        jobEvents[h].Prune(closed);
        left := left - {h};
      }
    }

    method FailAllPending()
      requires Valid()
      modifies this`pendingReplies, this`jobEvents, out
      ensures Valid() && View() == Fresh && jobEvents == map[]
      ensures out.sent == old(out.sent) + FailAll(old(pendingReplies))
    {
      var pending := pendingReplies;
      var i := 0;
      while i < |pending|
        invariant i <= |pending| && pending == old(pendingReplies)
        invariant out.sent + FailAll(pending[i..]) == old(out.sent) + FailAll(pending)
      {
        out.Put(Answer(pending[i].id, ConnectionClosed));
        i := i + 1;
      }
      pendingReplies, jobEvents := [], map[];
    }

    /**
     The actor's loop on a live connection, over what the select! yields turn by turn: it stops at
     the first turn that ends the connection, or when the inputs run out.
     */
    method ActorLoop(inputs: seq<Input>) returns (taken: nat)
      requires Valid() && phase.Connected?
      modifies this, jobEvents.Values, out
      ensures Valid() && fresh(jobEvents.Values - old(jobEvents.Values))
      ensures taken <= |inputs| && (inputs != [] ==> taken > 0) && (phase.Connected? ==> taken == |inputs|)
      ensures SideView() == SideRun(old(SideView()), inputs[..taken]).side
      ensures out.sent == old(out.sent) + SideRun(old(SideView()), inputs[..taken]).effects
    {
      hide SideStep, SideRun;
      taken := 0;
      SideRunNone(SideView());
      while taken < |inputs| && phase.Connected?
        invariant taken <= |inputs| && (taken == 0 ==> phase.Connected?)
        invariant Valid()
        invariant fresh(jobEvents.Values - old(jobEvents.Values))
        invariant SideView() == SideRun(old(SideView()), inputs[..taken]).side
        invariant out.sent == old(out.sent) + SideRun(old(SideView()), inputs[..taken]).effects
      {
        SideRunSnoc(old(SideView()), inputs[..taken], inputs[taken]);
        assert inputs[..taken + 1] == inputs[..taken] + [inputs[taken]];
        Turn(inputs[taken]);
        taken := taken + 1;
      }
    }

    method Turn(input: Input)
      requires Valid() && phase.Connected?
      modifies this, jobEvents.Values, out
      ensures Valid() && fresh(jobEvents.Values - old(jobEvents.Values))
      ensures SideView() == SideStep(old(SideView()), input).side
      ensures out.sent == old(out.sent) + SideStep(old(SideView()), input).effects
    {
      hide Handle1, ClientCore.Prune, FailAll;
      match input {
        case Enqueue(cmd) =>
          queue := queue + [cmd];
        case Take(ok) =>
          if queue != [] {
            var cmd := queue[0];
            queue := queue[1..];
            if ok && cmd.fits {
              pendingReplies := pendingReplies + [cmd];
            } else {
              out.Put(Answer(cmd.id, SendFailed));
              phase := Disconnected;
              ghost var failed := FailAll(pendingReplies);
              FailAllPending();
              Assoc(old(out.sent), [Answer(cmd.id, SendFailed)], failed);
            }
          }
        case Receive(p) =>
          HandleIncoming(p);
        case PruneTick(closed) =>
          PruneClosedSubscribers(closed);
        case Lost =>
          phase := Disconnected;
          FailAllPending();
        case HandlesGone =>
          if queue == [] {
            phase := Stopped;
            FailAllPending();
          }
        case Connect(_) =>
      }
    }

    /** Off a connection the actor only waits for a connection attempt to succeed. */
    method AwaitConnection(input: Input)
      requires Valid() && !phase.Connected?
      modifies this`queue, this`phase
      ensures SideView() == SideStep(old(SideView()), input).side
      ensures SideStep(old(SideView()), input).effects == []
    {
      if input.Enqueue? {
        queue := queue + [input.cmd];
      } else if phase.Disconnected? && input == Connect(true) {
        phase := Connected;
      }
    }

    /** run_server_actor: reconnects after every loss, until no Client is left. */
    method RunServerActor(inputs: seq<Input>)
      requires Valid()
      modifies this, jobEvents.Values, out
      ensures Valid()
      ensures SideView() == SideRun(old(SideView()), inputs).side
      ensures out.sent == old(out.sent) + SideRun(old(SideView()), inputs).effects
    {
      hide SideStep, SideRun;
      var i := 0;
      SideRunNone(SideView());
      while i < |inputs|
        invariant i <= |inputs| && Valid() && fresh(jobEvents.Values - old(jobEvents.Values))
        invariant SideView() == SideRun(old(SideView()), inputs[..i]).side
        invariant out.sent == old(out.sent) + SideRun(old(SideView()), inputs[..i]).effects
      {
        var taken := 1;
        if phase.Connected? {
          taken := ActorLoop(inputs[i..]);
          assert inputs[i..][..taken] == inputs[i..i + taken];
        } else {
          SideRunNone(SideView());
          SideRunSnoc(SideView(), [], inputs[i]);
          assert inputs[i..i + 1] == [] + [inputs[i]];
          AwaitConnection(inputs[i]);
        }
        SideRunConcat(old(SideView()), inputs[..i], inputs[i..i + taken]);
        assert inputs[..i + taken] == inputs[..i] + inputs[i..i + taken];
        i := i + taken;
      }
      assert inputs[..i] == inputs;
    }
  }

  /** handle_incoming's arm for JOB_CREATED. */
  lemma OnJobCreated(c: Client, p: Packet)
    requires p.ptype.JobCreated?
    ensures Handle1(c, p) ==
            if c.pending == [] then Outcome(c, [])
            else
              var first, rest, h := c.pending[0], c.pending[1..], p.ArgOrEmpty(0);
              if !first.kind.Submit? then Outcome(Client(rest, c.jobs), [Dropped(first.id)])
              else if !first.kind.foreground then Outcome(Client(rest, c.jobs), [Answer(first.id, Created(h))])
              else Outcome(Client(rest, c.jobs[h := c.SubsOf(h).Add(first.id)]), [Answer(first.id, Created(h))])
  {
  }

  /** handle_incoming's arms for STATUS_RES and STATUS_RES_UNIQUE. */
  lemma OnStatus(c: Client, p: Packet)
    requires p.ptype.StatusRes? || p.ptype.StatusResUnique?
    ensures Handle1(c, p) ==
            if c.pending == [] then Outcome(c, [])
            else
              var first, rest := c.pending[0], Client(c.pending[1..], c.jobs);
              if p.ptype.StatusRes? && first.kind.GetStatus?
              then Outcome(rest, [Answer(first.id, StatusIs(ParseStatus(p, None)))])
              else if p.ptype.StatusResUnique? && first.kind.GetStatusUnique? then
                Outcome(rest, [Answer(first.id, StatusIs(ParseStatus(p, Parse(U32_MAX, p.ArgOrEmpty(5)))))])
              else Outcome(rest, [Dropped(first.id)])
  {
    hide Parse;
  }

  lemma {:induction false} SideRunConcat(s: Side, a: seq<Input>, b: seq<Input>)
    ensures SideRun(s, a + b).side == SideRun(SideRun(s, a).side, b).side
    ensures SideRun(s, a + b).effects == SideRun(s, a).effects + SideRun(SideRun(s, a).side, b).effects
    decreases |a|
  {
    hide SideStep;
    if a == [] {
      assert a + b == b;
    } else {
      SideRunConcat(SideStep(s, a[0]).side, a[1..], b);
      assert (a + b)[1..] == a[1..] + b;
    }
  }

  lemma SideRunNone(s: Side)
    ensures SideRun(s, []) == SideOutcome(s, [])
  {
  }

  lemma SideRunSnoc(s: Side, a: seq<Input>, x: Input)
    ensures SideRun(s, a + [x]).side == SideStep(SideRun(s, a).side, x).side
    ensures SideRun(s, a + [x]).effects == SideRun(s, a).effects + SideStep(SideRun(s, a).side, x).effects
  {
    hide SideStep;
    SideRunConcat(s, a, [x]);
    var o := SideStep(SideRun(s, a).side, x);
    assert [x][1..] == [] && SideRun(o.side, []) == SideOutcome(o.side, []);
    assert o.effects + [] == o.effects;
  }
}
