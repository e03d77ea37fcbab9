/**
 Whole runs of one client actor against a job server that keeps the protocol
 (src/client/mod.rs:551-788). The server answers requests in order, and sends every event of a
 job once per registration it holds on the connection, those copies back to back.
 */
module ClientRuns {
  import opened Wrappers
  import opened Protocol
  import opened ClientCore
  import opened ClientSide

  // ---------- What a caller is owed, from the server's history alone ----------

  datatype Happening =
    | Registered(id: Id, handle: Handle)
    | Broadcast(handle: Handle, event: JobEvent)
    | ConnectionEnded

  datatype Status = NotYet | Active(handle: Handle) | Over

  datatype Watch = Watch(status: Status, events: seq<JobEvent>)

  function Next(w: Watch, id: Id, x: Happening): Watch {
    match x
    case Registered(i, h) => if i == id && w.status.NotYet? then Watch(Active(h), w.events) else w
    case Broadcast(h, e) =>
      if w.status == Active(h) then Watch(if e.Terminal() then Over else w.status, w.events + [e]) else w
    case ConnectionEnded => if w.status.Active? then w.(status := Over) else w
  }

  /**
   The events broadcast for the job of `id` from its registration to the first terminal one, or
   to the end of the connection.
   */
  function Watched(history: seq<Happening>, id: Id): Watch {
    if history == [] then Watch(NotYet, [])
    else Next(Watched(history[..|history| - 1], id), id, history[|history| - 1])
  }

  // ---------- The system ----------

  datatype World = World(
    side: Side,
    toServer: seq<Command>,
    toClient: seq<Packet>,
    /** The server's registrations on this connection, oldest first, per live job. */
    regs: map<Handle, seq<Id>>,
    /** Streams whose receiving half is gone. */
    closed: set<Id>,
    /** What each stream's receiving half has been given. */
    inboxes: map<Id, seq<JobEvent>>,
    /** Everything the client side has sent to its callers, over all connections. */
    done: seq<Effect>,
    history: seq<Happening>,
    /** The server's reply to each request it has answered. */
    served: map<Id, Reply>,
    issued: set<Id>,
    /** Commands taken on connections that have ended. */
    past: set<Id>)
  {
    function Inbox(id: Id): seq<JobEvent> {
      InboxIn(inboxes, id)
    }
  }

  function RegsOf(regs: map<Handle, seq<Id>>, h: Handle): seq<Id> {
    if h in regs then regs[h] else []
  }

  const Init := World(Start, [], [], map[], {}, map[], [], [], map[], {}, {})

  datatype Step =
    | Submits(cmd: Command)
    | Connects(ok: bool)
    | Takes(sent: bool)
    | Accepts(reply: Packet)
    | Broadcasts(work: Packet)
    | Delivers
    | Abandons(id: Id)
    | Sweeps
    | Breaks
    | Quits                        // the last Client is dropped

  /** The steps the system can take; those of the server are the ones that keep the protocol. */
  predicate Enabled(w: World, s: Step) {
    match s
    case Submits(cmd) => cmd.id !in w.issued && !w.side.phase.Stopped?
    case Connects(_) => w.side.phase.Disconnected?
    case Takes(sent) => w.side.phase.Connected? && w.side.queue != [] && (sent ==> w.side.queue[0].fits)
    case Accepts(p) =>
      && w.toServer != []
      && |p.args| == p.ptype.ArgCount()
      && ReplyOf(w.toServer[0].kind, p).Some?
    case Broadcasts(p) => w.side.phase.Connected? && IsWork(p.ptype) && |p.args| == p.ptype.ArgCount()
    case Delivers => w.toClient != []
    case Abandons(_) => true
    case Sweeps => w.side.phase.Connected?
    case Breaks => w.side.phase.Connected?
    case Quits => w.side.phase.Connected? && w.side.queue == []
  }

  function InboxIn(inboxes: map<Id, seq<JobEvent>>, id: Id): seq<JobEvent> {
    if id in inboxes then inboxes[id] else []
  }

  function Post(inboxes: map<Id, seq<JobEvent>>, closed: set<Id>, fs: seq<Effect>): map<Id, seq<JobEvent>>
    decreases |fs|
  {
    if fs == [] then inboxes
    else
      var f := fs[0];
      var next := if f.Event? && f.id !in closed
                  then inboxes[f.id := InboxIn(inboxes, f.id) + [f.event]]
                  else inboxes;
      Post(next, closed, fs[1..])
  }

  /** The client side makes a move; what it sends to open streams arrives there. */
  function Move(w: World, input: Input): World {
    var o := SideStep(w.side, input);
    w.(side := o.side, done := w.done + o.effects, inboxes := Post(w.inboxes, w.closed, o.effects))
  }

  function CommandIds(q: seq<Command>): set<Id> {
    set c <- q :: c.id
  }

  function Broken(w: World): World {
    w.(toServer := [], toClient := [], regs := map[], history := w.history + [ConnectionEnded],
       past := w.issued - CommandIds(w.side.queue))
  }

  function Apply(w: World, s: Step): World
    requires Enabled(w, s)
  {
    match s
    case Submits(cmd) => Move(w, Enqueue(cmd)).(issued := w.issued + {cmd.id})
    case Connects(ok) => Move(w, Connect(ok))
    case Takes(true) => Move(w, Take(true)).(toServer := w.toServer + [w.side.queue[0]])
    case Takes(false) => Broken(Move(w, Take(false)))
    case Accepts(p) =>
      var req := w.toServer[0];
      var w' := w.(toServer := w.toServer[1..], toClient := w.toClient + [p],
                   served := w.served[req.id := ReplyOf(req.kind, p).value]);
      if p.ptype.JobCreated? && req.kind == Submit(true) then
        var h := p.args[0];
        w'.(regs := w.regs[h := RegsOf(w.regs, h) + [req.id]], history := w.history + [Registered(req.id, h)])
      else w'
    case Broadcasts(p) =>
      var h, e := p.args[0], EventOf(p);
      w.(toClient := w.toClient + Copies(p, |RegsOf(w.regs, h)|), history := w.history + [Broadcast(h, e)],
         regs := if e.Terminal() then w.regs - {h} else w.regs)
    case Delivers => Move(w.(toClient := w.toClient[1..]), Receive(w.toClient[0]))
    case Abandons(id) => w.(closed := w.closed + {id})
    case Sweeps => Move(w, PruneTick(w.closed))
    case Breaks => Broken(Move(w, Lost))
    case Quits => Broken(Move(w, HandlesGone))
  }

  predicate Legal(w: World, steps: seq<Step>)
    decreases |steps|
  {
    steps == [] || (Enabled(w, steps[0]) && Legal(Apply(w, steps[0]), steps[1..]))
  }

  function After(w: World, steps: seq<Step>): World
    requires Legal(w, steps)
    decreases |steps|
  {
    if steps == [] then w else After(Apply(w, steps[0]), steps[1..])
  }
}
