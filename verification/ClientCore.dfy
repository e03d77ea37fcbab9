/**
 The client connection actor on values (src/client/mod.rs): what one packet, command or prune
 sweep does to the reply queue and to the subscribers of each job, and what it sends to callers.
 The classes of ClientActor are proved against these functions; ClientRuns proves what they
 guarantee over whole runs.
 */
module ClientCore {
  import opened Wrappers
  import opened Protocol
  import opened Decimal

  /** Names a command: its reply oneshot and, for a foreground submission, its event stream. */
  type Id = nat

  type Handle = bytes

  datatype JobEvent =
    | Status(numerator: nat, denominator: nat)
    | Data(data: bytes)
    | Warning(data: bytes)
    | Complete(data: bytes)
    | Fail
    | Exception(data: bytes)
  {
    predicate Terminal() {
      Complete? || Fail? || Exception?
    }
  }

  datatype JobStatus = JobStatus(known: bool, running: bool, numerator: nat, denominator: nat, clientCount: Option<nat>)

  datatype Reply =
    | Created(handle: Handle)
    | StatusIs(status: JobStatus)
    | ServerError(code: bytes, text: bytes)
    | ConnectionClosed
    | SendFailed

  datatype CommandKind = Submit(foreground: bool) | GetStatus | GetStatusUnique

  /** A request waiting for, or sent to, the server; `fits` if the codec takes its packet. `id` never travels. */
  datatype Command = Command(id: Id, kind: CommandKind, fits: bool)

  /** What the actor does to its callers' channels. `Dropped` is a oneshot dropped unanswered. */
  datatype Effect =
    | Event(id: Id, event: JobEvent)
    | Answer(id: Id, reply: Reply)
    | Dropped(id: Id)

  // ---------- The subscribers of one job ----------

  /** The last element takes the place of the removed one. */
  function SwapRemove<T>(s: seq<T>, i: nat): (r: seq<T>)
    requires i < |s|
    ensures |r| == |s| - 1
  {
    s[i := s[|s| - 1]][..|s| - 1]
  }

  lemma LastTakesItsPlace<T>(s: seq<T>, i: nat, j: nat)
    requires i < |s| && j < |s| - 1
    ensures SwapRemove(s, i)[j] == if j == i then s[|s| - 1] else s[j]
  {
  }

  lemma SwapRemoveTakesOne<T>(s: seq<T>, i: nat)
    requires i < |s|
    ensures multiset(SwapRemove(s, i)) + multiset{s[i]} == multiset(s)
  {
    var n := |s| - 1;
    assert s == s[..n] + [s[n]];
    if i < n {
      assert s[..n] == s[..i] + [s[i]] + s[i + 1..n];
      assert SwapRemove(s, i) == s[..i] + [s[n]] + s[i + 1..n];
    } else {
      assert SwapRemove(s, i) == s[..n];
    }
  }

  /** One slot per registration the server holds on this connection; None once abandoned. */
  datatype Subs = Subs(slots: seq<Option<Id>>, cursor: nat) {
    function At(): nat {
      if cursor >= |slots| then 0 else cursor
    }

    function Add(id: Id): Subs {
      this.(slots := slots + [Some(id)])
    }

    /** The slot that the next copy goes to. */
    function Target(): Option<Id> {
      if slots == [] then None else slots[At()]
    }

    function Deliver(terminal: bool): Subs {
      if slots == [] then this
      else
        var moved := if terminal then Subs(SwapRemove(slots, At()), At()) else Subs(slots, At() + 1);
        moved.(cursor := moved.At())
    }

    function Prune(closed: set<Id>): Subs {
      this.(slots := seq(|slots|, i requires 0 <= i < |slots| =>
        if slots[i].Some? && slots[i].value in closed then None else slots[i]))
    }
  }

  const NoSubs := Subs([], 0)

  function DeliverN(s: Subs, terminal: bool, n: nat): Subs
    decreases n
  {
    if n == 0 then s else DeliverN(s.Deliver(terminal), terminal, n - 1)
  }

  function Targets(s: Subs, terminal: bool, n: nat): (ts: seq<Option<Id>>)
    ensures |ts| == n
    decreases n
  {
    if n == 0 then [] else [s.Target()] + Targets(s.Deliver(terminal), terminal, n - 1)
  }

  /**
   Terminal rounds, whatever the server did before: from any cursor, as many terminal copies as
   there are slots go once to each slot, and the slots run out with the last copy and not before.
   */
  lemma {:induction false} TerminalRound(s: Subs, n: nat)
    requires n <= |s.slots|
    ensures |DeliverN(s, true, n).slots| == |s.slots| - n
    ensures n == |s.slots| ==> multiset(Targets(s, true, n)) == multiset(s.slots)
    ensures n > 0 ==> DeliverN(s, true, n).cursor <= |s.slots| - n
    decreases n
  {
    if n > 0 {
      TerminalRound(s.Deliver(true), n - 1);
      SwapRemoveTakesOne(s.slots, s.At());
      if n == |s.slots| {
        assert Targets(s, true, n) == [s.Target()] + Targets(s.Deliver(true), true, n - 1);
      }
    }
  }

  /** A round of other copies visits the slots from the cursor on, in order, and ends where it began. */
  lemma {:induction false} RoundFrom(s: Subs, n: nat)
    requires s.cursor + n <= |s.slots|
    ensures Targets(s, false, n) == s.slots[s.cursor..s.cursor + n]
    ensures DeliverN(s, false, n)
         == if n == 0 || s.cursor + n < |s.slots| then Subs(s.slots, s.cursor + n) else Subs(s.slots, 0)
    decreases n
  {
    if n > 0 {
      var d := s.Deliver(false);
      if n == 1 {
        assert DeliverN(d, false, 0) == d && Targets(d, false, 0) == [];
      } else {
        RoundFrom(d, n - 1);
      }
      assert s.slots[s.cursor..s.cursor + n] == [s.slots[s.cursor]] + s.slots[s.cursor + 1..s.cursor + n];
    }
  }

  lemma {:induction false} DeliverNSplit(s: Subs, terminal: bool, a: nat, b: nat)
    ensures DeliverN(s, terminal, a + b) == DeliverN(DeliverN(s, terminal, a), terminal, b)
    ensures Targets(s, terminal, a + b) == Targets(s, terminal, a) + Targets(DeliverN(s, terminal, a), terminal, b)
    decreases a
  {
    if a > 0 {
      DeliverNSplit(s.Deliver(terminal), terminal, a - 1, b);
    }
  }

  lemma Round(s: Subs)
    requires s.cursor < |s.slots|
    ensures Targets(s, false, |s.slots|) == s.slots[s.cursor..] + s.slots[..s.cursor]
    ensures DeliverN(s, false, |s.slots|) == s
  {
    hide DeliverN, Targets;
    var n, k, back := |s.slots|, s.cursor, Subs(s.slots, 0);
    RoundFrom(s, n - k);
    RoundFrom(back, k);
    DeliverNSplit(s, false, n - k, k);
    assert s.slots[k..n] == s.slots[k..] && s.slots[0..k] == s.slots[..k];
  }

  // ---------- One connection ----------

  /** `pending` are the requests sent and not answered, oldest first. */
  datatype Client = Client(pending: seq<Command>, jobs: map<Handle, Subs>) {
    function SubsOf(h: Handle): Subs {
      if h in jobs then jobs[h] else NoSubs
    }

    function Push(p: Command): Client {
      this.(pending := pending + [p])
    }
  }

  const Fresh := Client([], map[])

  function ParseOr0(s: bytes): nat {
    match Parse(U64_MAX, s) case Some(n) => n case None => 0
  }

  function ParseStatus(p: Packet, clientCount: Option<nat>): JobStatus {
    JobStatus(p.ArgOrEmpty(1) == [49], p.ArgOrEmpty(2) == [49],
              ParseOr0(p.ArgOrEmpty(3)), ParseOr0(p.ArgOrEmpty(4)), clientCount)
  }

  predicate IsWork(t: PacketType) {
    t.WorkStatus? || t.WorkComplete? || t.WorkFail? || t.WorkData? || t.WorkWarning? || t.WorkException?
  }

  /** The event a WORK_* packet stands for. */
  function EventOf(p: Packet): JobEvent
    requires IsWork(p.ptype)
  {
    match p.ptype
    case WorkStatus => JobEvent.Status(ParseOr0(p.ArgOrEmpty(1)), ParseOr0(p.ArgOrEmpty(2)))
    case WorkComplete => Complete(p.ArgOrEmpty(1))
    case WorkFail => Fail
    case WorkData => Data(p.ArgOrEmpty(1))
    case WorkWarning => Warning(p.ArgOrEmpty(1))
    case WorkException => Exception(p.ArgOrEmpty(1))
  }

  datatype Outcome = Outcome(client: Client, effects: seq<Effect>)

  /** The client with these subscribers for a job; a job without slots is forgotten. */
  function Keeping(c: Client, h: Handle, s: Subs): Client {
    c.(jobs := if s.slots == [] then c.jobs - {h} else c.jobs[h := s])
  }

  /** dispatch_work_event: one copy of an event goes to the next slot of its job. */
  function Dispatch(c: Client, p: Packet): Outcome
    requires IsWork(p.ptype)
  {
    if |p.args| == 0 || p.args[0] !in c.jobs then Outcome(c, [])
    else
      var h, e := p.args[0], EventOf(p);
      var s := c.jobs[h];
      Outcome(Keeping(c, h, s.Deliver(e.Terminal())), Send(s.Target(), e))
  }

  /** The reply a packet carries for a request of this kind, when it is one that fits it. */
  function ReplyOf(kind: CommandKind, p: Packet): Option<Reply> {
    match (p.ptype, kind)
    case (JobCreated, Submit(_)) => Some(Created(p.ArgOrEmpty(0)))
    case (StatusRes, GetStatus) => Some(StatusIs(ParseStatus(p, None)))
    case (StatusResUnique, GetStatusUnique) => Some(StatusIs(ParseStatus(p, Parse(U32_MAX, p.ArgOrEmpty(5)))))
    case (Error, _) => Some(ServerError(p.ArgOrEmpty(0), p.ArgOrEmpty(1)))
    case (_, _) => None
  }

  predicate IsReply(t: PacketType) {
    t.JobCreated? || t.StatusRes? || t.StatusResUnique? || t.Error?
  }

  /** handle_incoming: a reply takes the oldest request, fitting or not; events are dispatched. */
  function Handle1(c: Client, p: Packet): Outcome {
    if IsWork(p.ptype) then Dispatch(c, p)
    else if !IsReply(p.ptype) || c.pending == [] then Outcome(c, [])
    else
      var first, popped := c.pending[0], c.(pending := c.pending[1..]);
      match ReplyOf(first.kind, p)
      case None => Outcome(popped, [Dropped(first.id)])
      case Some(reply) =>
        var joined := if p.ptype.JobCreated? && first.kind == Submit(true)
                      then popped.(jobs := popped.jobs[reply.handle := popped.SubsOf(reply.handle).Add(first.id)])
                      else popped;
        Outcome(joined, [Answer(first.id, reply)])
  }

  function Prune(c: Client, closed: set<Id>): Client {
    c.(jobs := map h | h in c.jobs :: c.jobs[h].Prune(closed))
  }

  /** After a sweep no slot is left to a dropped stream, and every other slot is as it was. */
  lemma SweptClean(c: Client, closed: set<Id>)
    ensures Prune(c, closed).jobs.Keys == c.jobs.Keys && Prune(c, closed).pending == c.pending
    ensures forall h <- c.jobs :: var s, t := c.jobs[h], Prune(c, closed).jobs[h];
      && |t.slots| == |s.slots| && t.cursor == s.cursor
      && (forall id <- closed :: Some(id) !in t.slots)
      && forall i :: 0 <= i < |s.slots| ==> t.slots[i] == s.slots[i] || (s.slots[i].Some? && s.slots[i].value in closed)
  {
  }

  /**
   A reply always takes the oldest request, whatever it asked: a reply of its own kind answers it,
   any other drops its oneshot, and no other request is touched.
   */
  lemma RepliesTakeTheOldest(c: Client, p: Packet)
    requires IsReply(p.ptype) && c.pending != []
    ensures var o, first := Handle1(c, p), c.pending[0];
      && o.client.pending == c.pending[1..]
      && (Resolves(first.kind, p.ptype) ==> exists r :: o.effects == [Answer(first.id, r)])
      && (!Resolves(first.kind, p.ptype) ==> o.effects == [Dropped(first.id)] && o.client.jobs == c.jobs)
  {
    if Resolves(c.pending[0].kind, p.ptype) {
      assert Handle1(c, p).effects == [Answer(c.pending[0].id, ReplyOf(c.pending[0].kind, p).value)];
    }
  }

  predicate Resolves(kind: CommandKind, t: PacketType) {
    || t.Error?
    || (t.JobCreated? && kind.Submit?)
    || (t.StatusRes? && kind.GetStatus?)
    || (t.StatusResUnique? && kind.GetStatusUnique?)
  }

  /** Packets that are no replies, and replies that no one waits for, change nothing but subscribers. */
  lemma OthersTakeNothing(c: Client, p: Packet)
    requires !IsReply(p.ptype) || c.pending == []
    ensures Handle1(c, p).client.pending == c.pending
    ensures !IsWork(p.ptype) ==> Handle1(c, p) == Outcome(c, [])
    ensures forall f <- Handle1(c, p).effects :: f.Event?
  {
  }

  /** fail_all_pending: every request still waiting is told that the connection is gone. */
  function FailAll(pending: seq<Command>): seq<Effect> {
    if pending == [] then [] else [Answer(pending[0].id, ConnectionClosed)] + FailAll(pending[1..])
  }

  // ---------- Reading effects per caller ----------

  function EventIn(f: Effect, id: Id): seq<JobEvent> {
    if f.Event? && f.id == id then [f.event] else []
  }

  function AnswerIn(f: Effect, id: Id): seq<Reply> {
    if f.Answer? && f.id == id then [f.reply] else []
  }

  /** The events sent on the stream of `id`, in order. */
  function EventsFor(effects: seq<Effect>, id: Id): seq<JobEvent> {
    if effects == [] then [] else EventIn(effects[0], id) + EventsFor(effects[1..], id)
  }

  /** The replies sent on the oneshot of `id`, in order. */
  function AnswersFor(effects: seq<Effect>, id: Id): seq<Reply> {
    if effects == [] then [] else AnswerIn(effects[0], id) + AnswersFor(effects[1..], id)
  }

  lemma {:induction false} EventsConcat(a: seq<Effect>, b: seq<Effect>, id: Id)
    ensures EventsFor(a + b, id) == EventsFor(a, id) + EventsFor(b, id)
  {
    if a == [] {
      assert a + b == b && [] + EventsFor(b, id) == EventsFor(b, id);
    } else {
      hide EventIn;
      EventsConcat(a[1..], b, id);
      FrontOf(a, b);
      Assoc(EventIn(a[0], id), EventsFor(a[1..], id), EventsFor(b, id));
    }
  }

  lemma {:induction false} AnswersConcat(a: seq<Effect>, b: seq<Effect>, id: Id)
    ensures AnswersFor(a + b, id) == AnswersFor(a, id) + AnswersFor(b, id)
  {
    if a == [] {
      assert a + b == b && [] + AnswersFor(b, id) == AnswersFor(b, id);
    } else {
      hide AnswerIn;
      AnswersConcat(a[1..], b, id);
      FrontOf(a, b);
      Assoc(AnswerIn(a[0], id), AnswersFor(a[1..], id), AnswersFor(b, id));
    }
  }

  // ---------- Packets in sequence ----------

  function Run(c: Client, ps: seq<Packet>): Outcome
    decreases |ps|
  {
    if ps == [] then Outcome(c, [])
    else
      var o := Handle1(c, ps[0]);
      var rest := Run(o.client, ps[1..]);
      Outcome(rest.client, o.effects + rest.effects)
  }

  lemma {:induction false} RunConcat(c: Client, a: seq<Packet>, b: seq<Packet>)
    ensures Run(c, a + b).client == Run(Run(c, a).client, b).client
    ensures Run(c, a + b).effects == Run(c, a).effects + Run(Run(c, a).client, b).effects
    decreases |a|
  {
    hide Handle1;
    if a == [] {
      assert a + b == b;
    } else {
      RunConcat(Handle1(c, a[0]).client, a[1..], b);
      assert (a + b)[1..] == a[1..] + b;
    }
  }

  function Copies<T>(x: T, n: nat): (r: seq<T>)
    ensures |r| == n && forall y <- r :: y == x
  {
    if n == 0 then [] else [x] + Copies(x, n - 1)
  }

  function Send(target: Option<Id>, e: JobEvent): seq<Effect> {
    match target case Some(id) => [Event(id, e)] case None => []
  }

  /** The effects of sending `e` to these slots in turn. */
  function Sends(targets: seq<Option<Id>>, e: JobEvent): seq<Effect> {
    if targets == [] then [] else Send(targets[0], e) + Sends(targets[1..], e)
  }

  /** A slot hit m times means m copies of the event, and no reply. */
  lemma {:induction false} SendsPerId(targets: seq<Option<Id>>, e: JobEvent, id: Id)
    ensures EventsFor(Sends(targets, e), id) == Copies(e, multiset(targets)[Some(id)])
    ensures AnswersFor(Sends(targets, e), id) == []
  {
    if targets != [] {
      var first := Send(targets[0], e);
      SendsPerId(targets[1..], e, id);
      SendPerId(targets[0], e, id);
      EventsConcat(first, Sends(targets[1..], e), id);
      AnswersConcat(first, Sends(targets[1..], e), id);
      CountFirst(targets, Some(id));
      hide EventsFor, AnswersFor, Send;
    }
  }

  lemma CountFirst<T>(s: seq<T>, x: T)
    requires s != []
    ensures multiset(s)[x] == multiset(s[1..])[x] + if s[0] == x then 1 else 0
  {
    assert s == [s[0]] + s[1..];
  }

  lemma SendPerId(target: Option<Id>, e: JobEvent, id: Id)
    ensures EventsFor(Send(target, e), id) == if target == Some(id) then [e] else []
    ensures AnswersFor(Send(target, e), id) == []
  {
    if target.Some? {
      assert Send(target, e)[1..] == [];
    }
  }

  lemma KeepingTwice(c: Client, h: Handle, s: Subs, t: Subs)
    ensures Keeping(Keeping(c, h, s), h, t) == Keeping(c, h, t)
    ensures s.slots != [] ==> h in Keeping(c, h, s).jobs && Keeping(c, h, s).jobs[h] == s
    ensures h in c.jobs && c.jobs[h].slots != [] ==> Keeping(c, h, c.jobs[h]) == c
  {
  }

  lemma RunFirst(c: Client, ps: seq<Packet>)
    requires ps != []
    ensures var o := Handle1(c, ps[0]);
      && Run(c, ps).client == Run(o.client, ps[1..]).client
      && Run(c, ps).effects == o.effects + Run(o.client, ps[1..]).effects
  {
  }

  lemma DispatchOnce(c: Client, p: Packet)
    requires IsWork(p.ptype) && |p.args| > 0 && p.args[0] in c.jobs
    ensures var s, e := c.jobs[p.args[0]], EventOf(p);
      Handle1(c, p) == Outcome(Keeping(c, p.args[0], s.Deliver(e.Terminal())), Send(s.Target(), e))
  {
  }

  lemma DeliverSize(s: Subs, terminal: bool)
    ensures |s.Deliver(terminal).slots| == if terminal && s.slots != [] then |s.slots| - 1 else |s.slots|
  {
  }

  /** Copies of one WORK_* packet, handled one after another, are deliveries to that job's slots. */
  lemma {:induction false} RunCopies(c: Client, p: Packet, n: nat)
    requires IsWork(p.ptype) && |p.args| > 0 && p.args[0] in c.jobs
    requires EventOf(p).Terminal() ==> n <= |c.jobs[p.args[0]].slots|
    requires c.jobs[p.args[0]].slots != []
    ensures var s, e := c.jobs[p.args[0]], EventOf(p);
      && Run(c, Copies(p, n)).client == Keeping(c, p.args[0], DeliverN(s, e.Terminal(), n))
      && Run(c, Copies(p, n)).effects == Sends(Targets(s, e.Terminal(), n), e)
    decreases n
  {
    hide EventOf, Handle1, Send, Keeping, Run, Subs.Deliver, Subs.Target, SwapRemove;
    var h, e := p.args[0], EventOf(p);
    var s := c.jobs[h];
    KeepingTwice(c, h, s, s);
    LastCopy(c);
    if n > 0 {
      var t := s.Deliver(e.Terminal());
      assert Copies(p, n)[0] == p && Copies(p, n)[1..] == Copies(p, n - 1);
      RunFirst(c, Copies(p, n));
      DispatchOnce(c, p);
      var targets := Targets(s, e.Terminal(), n);
      assert targets[0] == s.Target() && targets[1..] == Targets(t, e.Terminal(), n - 1);
      var next := Keeping(c, h, t);
      KeepingTwice(c, h, t, DeliverN(t, e.Terminal(), n - 1));
      DeliverSize(s, e.Terminal());
      if n == 1 {
        LastCopy(next);
      } else {
        RunCopies(next, p, n - 1);
      }
    }
  }

  lemma LastCopy(c: Client)
    ensures Run(c, []) == Outcome(c, [])
  {
  }
}
