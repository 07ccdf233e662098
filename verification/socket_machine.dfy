/**
 The intercepted client socket as a state machine: what every method of the
 controller does to the controller's fields, to the connections it opened, and
 to the logs a reader uses to state what the controller is for.

 The steps follow "TcpSocketController"; the class in tcp_socket_controller.dfy
 carries the same fields and is proved to take exactly these steps.
 */
module SocketMachine {
  import opened Prelude

  type Chunk = string

  /** The data of one low-level write: one chunk, or the chunks of a vectored write. */
  type Data = d: seq<Chunk> | |d| > 0 witness [""]

  /** The header rewrite a passthrough verdict may apply to the first buffered write. */
  type Rewrite = Data -> Data

  /** A connection target (host and port). */
  type Target = nat

  datatype ReadyState = Pending | Claimed | Passthrough

  /** A client write; its number is its position among all client writes. */
  datatype Write = Write(id: nat, data: Data)

  /** A buffered write, and whether its completion callback is still owed. */
  datatype Entry = Entry(write: Write, callback: bool)

  /** A write leaves on a connection's own stream, or on the handle the client socket holds. */
  datatype Route = Direct(conn: nat) | Handle(owner: Option<nat>)

  /** A write handed over, with the target the controller was set to at that moment. */
  datatype Sent = Sent(route: Route, write: Write, wanted: Target)

  datatype Verdict = Undecided | Mocked | Passed(rewrite: Option<Rewrite>, held: nat)

  /** The client writes of one exchange, and what was decided about them. */
  datatype Exchange = Exchange(writes: seq<Write>, verdict: Verdict)

  /** A real connection; "attached" says whether its events reach the client socket. */
  datatype Conn = Conn(target: Target, destroyed: bool, attached: bool)

  datatype ReadEvent = RealData(chunk: Chunk) | RealEnd | RealClose(hadError: bool)

  /** Who emitted a "close" on the client socket. */
  datatype Origin = Forwarded | Replayed | Deferred | Forced | Native

  datatype ClientEvent = GotData(chunk: Chunk) | GotEnd | GotClose(hadError: bool, origin: Origin)

  datatype Tick = DeliverClose(hadError: bool) | ForceClose

  datatype Controller = Controller(
    readyState: ReadyState,
    buffered: seq<Entry>,
    resetScheduled: bool,
    connectEmulated: bool)

  datatype Link = Link(
    original: Target,
    retargeted: Option<Target>,
    conns: seq<Conn>,
    current: Option<nat>,
    swapped: bool,
    handle: Option<nat>)

  datatype Client = Client(connecting: bool, destroyed: bool, closed: bool, endPushed: bool, endRead: bool)

  datatype Reads = Reads(
    corked: bool,
    queue: seq<ReadEvent>,
    waiting: seq<bool>,
    ticks: seq<Tick>,
    arrived: seq<ReadEvent>,
    passed: seq<ReadEvent>,
    delivered: seq<ClientEvent>)

  datatype Log = Log(
    past: seq<Exchange>,
    open: Exchange,
    made: nat,
    sent: seq<Sent>,
    shown: seq<Write>,
    owed: seq<Write>,
    callbacks: seq<nat>,
    acked: seq<nat>,
    delegated: seq<nat>)

  datatype Machine = Machine(ctl: Controller, link: Link, client: Client, intake: Reads, log: Log)

  /** A transition somebody asks of the controller. */
  datatype Action =
    | Claim
    | Pass(rewrite: Option<Rewrite>)
    | Reset(target: Option<Target>)
    | ScheduleReset

  datatype Event =
    | ClientWrite(data: Data, callback: bool, listening: bool, acts: seq<Action>)
    | DeferredPush(acts: seq<Action>)
    | Perform(act: Action)
    | MockConnected
    | EmulateConnect
    | Connected(conn: nat)
    | Dropped(conn: nat)
    | Arrives(conn: nat, read: ReadEvent)
    | Fails(conn: nat)
    | Cork
    | Uncork
    | ReadEnd
    | DestroyClient(hadError: bool)
    | NativeClose
    | RunTick

  // ---------------------------------------------------------------------
  // The controller's transitions
  // ---------------------------------------------------------------------

  function Start(original: Target): Machine {
    Machine(
      Controller(Pending, [], false, false),
      Link(original, None, [], None, false, None),
      Client(true, false, false, false, false),
      Reads(false, [], [], [], [], [], []),
      Log([], Exchange([], Undecided), 0, [], [], [], [], [], []))
  }

  /** The target a new passthrough connection is made to. */
  function Effective(l: Link): Target {
    if l.retargeted.Some? then l.retargeted.value else l.original
  }

  /** The current passthrough connection can serve another exchange. */
  predicate Reusable(l: Link) {
    l.current.Some? && l.current.value < |l.conns| && !l.conns[l.current.value].destroyed
  }

  function WithVerdict(g: Log, v: Verdict): Log {
    g.(open := g.open.(verdict := v))
  }

  /** An already connected or destroyed socket keeps its buffer when claimed. */
  predicate SkipsClaim(m: Machine) {
    m.client.destroyed || (!m.client.connecting && !m.ctl.connectEmulated)
  }

  function DoClaim(m: Machine): Machine {
    if m.ctl.readyState != Pending then m else
      m.(ctl := m.ctl.(readyState := Claimed, buffered := if SkipsClaim(m) then m.ctl.buffered else []),
         log := WithVerdict(m.log, Mocked))
  }

  /** The buffered writes as they are handed to a connection: only the first is rewritten. */
  function FlushedWrite(buffered: seq<Entry>, rewrite: Option<Rewrite>, i: nat): Write
    requires i < |buffered|
  {
    var w := buffered[i].write;
    if i == 0 && rewrite.Some? then Write(w.id, rewrite.value(w.data)) else w
  }

  function Flush(buffered: seq<Entry>, rewrite: Option<Rewrite>, conn: nat, wanted: Target): seq<Sent> {
    seq(|buffered|, i requires 0 <= i < |buffered| => Sent(Direct(conn), FlushedWrite(buffered, rewrite, i), wanted))
  }

  /** The numbers of the writes whose callback is still owed. */
  function Owed(buffered: seq<Entry>): seq<nat> {
    if buffered == [] then [] else
      Owed(Init(buffered)) + (if Last(buffered).callback then [Last(buffered).write.id] else [])
  }

  function NextConn(l: Link): nat {
    if Reusable(l) then l.current.value else |l.conns|
  }

  function OpenLink(l: Link): Link {
    if Reusable(l) then
      l.(conns := l.conns[l.current.value := l.conns[l.current.value].(attached := true)])
    else
      l.(conns := l.conns + [Conn(Effective(l), false, true)], current := Some(|l.conns|))
  }

  function DoPass(m: Machine, rewrite: Option<Rewrite>): Machine {
    if m.ctl.readyState != Pending then m else
      var b := m.ctl.buffered;
      m.(ctl := m.ctl.(readyState := Passthrough, buffered := []),
         link := OpenLink(m.link),
         log := WithVerdict(m.log, Passed(rewrite, |b|))
                .(sent := m.log.sent + Flush(b, rewrite, NextConn(m.link), Effective(m.link)),
                  delegated := m.log.delegated + Owed(b)))
  }

  function Abandon(l: Link): Link {
    if l.current.None? then l else
      var c := l.current.value;
      l.(conns := if c < |l.conns| then l.conns[c := l.conns[c].(attached := false, destroyed := true)] else l.conns,
         current := None, swapped := false)
  }

  function Retarget(l: Link, target: Option<Target>): Link {
    if target.None? then l else Abandon(l).(retargeted := target)
  }

  function DoReset(m: Machine, target: Option<Target>): Machine {
    var m1 := m.(link := Retarget(m.link, target));
    if m.ctl.readyState == Pending then m1 else
      m1.(ctl := Controller(Pending, [], false, false),
          log := m.log.(past := m.log.past + [m.log.open], open := Exchange([], Undecided)))
  }

  function Act(m: Machine, a: Action): Machine {
    match a
    case Claim => DoClaim(m)
    case Pass(rewrite) => DoPass(m, rewrite)
    case Reset(target) => DoReset(m, target)
    case ScheduleReset => m.(ctl := m.ctl.(resetScheduled := true))
  }

  function ActAll(m: Machine, acts: seq<Action>): Machine {
    if acts == [] then m else Act(ActAll(m, Init(acts)), Last(acts))
  }

  // ---------------------------------------------------------------------
  // A client write
  // ---------------------------------------------------------------------

  /** The position of a write in the buffer, or -1. */
  function IndexOf(buffered: seq<Entry>, id: nat): (i: int)
    ensures -1 <= i < |buffered|
    ensures i >= 0 ==> buffered[i].write.id == id
    ensures forall j :: 0 <= j < (if i < 0 then |buffered| else i) ==> buffered[j].write.id != id
  {
    if buffered == [] then -1 else
      var i := IndexOf(Init(buffered), id);
      if i >= 0 then i else if Last(buffered).write.id == id then |buffered| - 1 else -1
  }

  function RemoveAt(buffered: seq<Entry>, i: int): seq<Entry>
    requires -1 <= i < |buffered|
  {
    if i < 0 then buffered else buffered[..i] + buffered[i + 1..]
  }

  function WriteCount(m: Machine): nat {
    m.log.made
  }

  /** The scheduled reset, then the new write at the end of the buffer. */
  function Buffer(m: Machine, data: Data, callback: bool): Machine {
    var m1 := if m.ctl.resetScheduled then DoReset(m, None) else m;
    m1.(ctl := m1.ctl.(buffered := m1.ctl.buffered + [Entry(Write(WriteCount(m), data), callback)]))
  }

  /** The server side sees the write now, or on the next tick when nobody listens yet. */
  function Push(m: Machine, w: Write, listening: bool, acts: seq<Action>): Machine {
    if m.ctl.readyState == Pending && !listening then
      m.(log := m.log.(owed := m.log.owed + [w]))
    else
      ActAll(m.(log := m.log.(shown := m.log.shown + [w])), acts)
  }

  function Acknowledge(g: Log, id: nat, callback: bool): Log {
    if callback then g.(acked := g.acked + [id]) else g
  }

  /** The write belongs to the exchange that is open once it has been handled. */
  function Record(g: Log, w: Write, callback: bool): Log {
    g.(open := g.open.(writes := g.open.writes + [w]), made := g.made + 1,
       callbacks := if callback then g.callbacks + [w.id] else g.callbacks)
  }

  function ExitRoute(l: Link): Route {
    if !l.swapped && l.current.Some? then Direct(l.current.value) else Handle(l.handle)
  }

  /** What becomes of the write once the push returned. */
  function Settle(m: Machine, w: Write, callback: bool): Machine {
    var b := m.ctl.buffered;
    var i := IndexOf(b, w.id);
    var g := Record(m.log, w, callback);
    match m.ctl.readyState
    case Pending =>
      var kept := if i < 0 then b + [Entry(w, false)] else b[i := Entry(w, false)];
      m.(ctl := m.ctl.(buffered := kept), log := Acknowledge(g, w.id, callback))
    case Claimed =>
      m.(ctl := m.ctl.(buffered := RemoveAt(b, i)), log := Acknowledge(g, w.id, callback))
    case Passthrough =>
      if i < 0 then m.(log := g) else
        m.(ctl := m.ctl.(buffered := RemoveAt(b, i)),
           log := g.(sent := g.sent + [Sent(ExitRoute(m.link), w, Effective(m.link))],
                     delegated := if callback then g.delegated + [w.id] else g.delegated))
  }

  function HandleWrite(m: Machine, data: Data, callback: bool, listening: bool, acts: seq<Action>): Machine {
    var w := Write(WriteCount(m), data);
    Settle(Push(Buffer(m, data, callback), w, listening, acts), w, callback)
  }

  function RunDeferredPush(m: Machine, acts: seq<Action>): Machine {
    if m.log.owed == [] then m else
      ActAll(m.(log := m.log.(shown := m.log.shown + [m.log.owed[0]], owed := m.log.owed[1..])), acts)
  }

  // ---------------------------------------------------------------------
  // Events of the real connection and of the client socket
  // ---------------------------------------------------------------------

  /** A connection's events reach the client only while its listeners are attached. */
  predicate Attached(l: Link, c: nat) {
    c < |l.conns| && l.conns[c].attached
  }

  function Destroy(l: Link, c: nat): Link {
    if c < |l.conns| then l.(conns := l.conns[c := l.conns[c].(destroyed := true)]) else l
  }

  function OnConnect(m: Machine): Machine {
    if m.link.current.None? then m else
    if m.client.destroyed then m.(link := Destroy(m.link, m.link.current.value)) else
      m.(link := m.link.(handle := m.link.current, swapped := true),
         client := m.client.(connecting := false))
  }

  /** The controller's own "close" listener cleans up. */
  function OnClientClose(m: Machine): Machine {
    m.(client := m.client.(closed := true),
       link := if m.link.current.None? then m.link else Destroy(m.link, m.link.current.value).(current := None),
       ctl := m.ctl.(buffered := []),
       intake := m.intake.(corked := false, queue := []))
  }

  /** "close" is emitted on the client. */
  function EmitClose(m: Machine, hadError: bool, origin: Origin): Machine {
    OnClientClose(m.(intake := m.intake.(delivered := m.intake.delivered + [GotClose(hadError, origin)])))
  }

  predicate EndUnread(c: Client) {
    c.endPushed && !c.endRead && !c.destroyed
  }

  function EmitClientClose(m: Machine, hadError: bool, origin: Origin): Machine {
    if EndUnread(m.client) then
      m.(intake := m.intake.(waiting := m.intake.waiting + [hadError]))
    else
      EmitClose(m, hadError, origin)
  }

  function PushToClient(m: Machine, e: ReadEvent): Machine
    requires !e.RealClose?
  {
    match e
    case RealData(chunk) => m.(intake := m.intake.(delivered := m.intake.delivered + [GotData(chunk)]))
    case RealEnd => m.(client := m.client.(endPushed := true),
                       intake := m.intake.(delivered := m.intake.delivered + [GotEnd]))
  }

  function OnRead(m: Machine, e: ReadEvent): Machine {
    var r := m.intake;
    var kept := m.(intake := r.(arrived := r.arrived + [e], queue := r.queue + [e]));
    var passed := m.(intake := r.(arrived := r.arrived + [e], passed := r.passed + [e]));
    if r.corked then kept
    else if !e.RealClose? then PushToClient(passed, e)
    else if m.client.closed || (m.client.destroyed && !m.link.swapped) then passed
    else EmitClientClose(passed, e.hadError, Forwarded)
  }

  function ReplayOne(m: Machine, e: ReadEvent): Machine {
    if e.RealClose? then EmitClientClose(m, e.hadError, Replayed) else PushToClient(m, e)
  }

  function Replay(m: Machine, events: seq<ReadEvent>): Machine {
    if events == [] then m else ReplayOne(Replay(m, Init(events)), Last(events))
  }

  /** The reads flow again; what was corked is about to be replayed. */
  function Opened(m: Machine): Machine {
    var r := m.intake;
    m.(intake := r.(corked := false, queue := [], passed := r.passed + r.queue))
  }

  function DoUncork(m: Machine): Machine {
    if !m.intake.corked then m else Replay(Opened(m), m.intake.queue)
  }

  /** Every close still waiting for the end-of-stream is scheduled, in order. */
  function Scheduled(waiting: seq<bool>, override: Option<bool>): seq<Tick> {
    if waiting == [] then [] else
      Scheduled(Init(waiting), override) +
        [DeliverClose(if override.Some? then override.value else Last(waiting))]
  }

  function ReleaseWaiting(r: Reads, override: Option<bool>): Reads {
    r.(ticks := r.ticks + Scheduled(r.waiting, override), waiting := [])
  }

  function DoReadEnd(m: Machine): Machine {
    if !EndUnread(m.client) then m else
      m.(client := m.client.(endRead := true), intake := ReleaseWaiting(m.intake, None))
  }

  function DoDestroy(m: Machine, hadError: bool): Machine {
    if m.client.destroyed then m else
      m.(client := m.client.(destroyed := true), intake := ReleaseWaiting(m.intake, Some(hadError)))
  }

  function OnFail(m: Machine): Machine {
    if m.client.destroyed then m else
      var m1 := DoDestroy(m, true);
      if m.link.swapped then m1.(intake := m1.intake.(ticks := m1.intake.ticks + [ForceClose])) else m1
  }

  function DoTick(m: Machine): Machine {
    if m.intake.ticks == [] then m else
      var m1 := m.(intake := m.intake.(ticks := m.intake.ticks[1..]));
      match m.intake.ticks[0]
      case DeliverClose(hadError) => if m.client.closed then m1 else EmitClose(m1, hadError, Deferred)
      case ForceClose => EmitClose(m1, true, Forced)
  }

  function DoNativeClose(m: Machine): Machine {
    if m.client.destroyed && !m.link.swapped then EmitClose(m, false, Native) else m
  }

  function DoEmulateConnect(m: Machine): Machine {
    if m.ctl.readyState == Pending && m.client.connecting && m.ctl.buffered == [] then
      m.(ctl := m.ctl.(connectEmulated := true), client := m.client.(connecting := false))
    else m
  }

  function Step(m: Machine, e: Event): Machine {
    match e
    case ClientWrite(data, callback, listening, acts) => HandleWrite(m, data, callback, listening, acts)
    case DeferredPush(acts) => RunDeferredPush(m, acts)
    case Perform(act) => Act(m, act)
    case MockConnected => m.(client := m.client.(connecting := false))
    case EmulateConnect => DoEmulateConnect(m)
    case Connected(c) => if Attached(m.link, c) then OnConnect(m) else m
    case Dropped(c) => m.(link := Destroy(m.link, c))
    case Arrives(c, read) => if Attached(m.link, c) then OnRead(m, read) else m
    case Fails(c) => if Attached(m.link, c) then OnFail(m) else m
    case Cork => m.(intake := m.intake.(corked := true))
    case Uncork => DoUncork(m)
    case ReadEnd => DoReadEnd(m)
    case DestroyClient(hadError) => DoDestroy(m, hadError)
    case NativeClose => DoNativeClose(m)
    case RunTick => DoTick(m)
  }

  function Run(m: Machine, events: seq<Event>): Machine {
    if events == [] then m else Step(Run(m, Init(events)), Last(events))
  }

  // ---------------------------------------------------------------------
  // What the controller is for
  // ---------------------------------------------------------------------

  function AllWrites(exchanges: seq<Exchange>): seq<Write> {
    if exchanges == [] then [] else AllWrites(Init(exchanges)) + Last(exchanges).writes
  }

  /** The writes of an exchange that belong on a real connection. */
  function OnWire(x: Exchange): seq<Write> {
    match x.verdict
    case Undecided => []
    case Mocked => []
    case Passed(rewrite, held) =>
      if rewrite.Some? && held > 0 && x.writes != [] then
        [Write(x.writes[0].id, rewrite.value(x.writes[0].data))] + x.writes[1..]
      else x.writes
  }

  function AllOnWire(exchanges: seq<Exchange>): seq<Write> {
    if exchanges == [] then [] else AllOnWire(Init(exchanges)) + OnWire(Last(exchanges))
  }

  function Exchanges(m: Machine): seq<Exchange> {
    m.log.past + [m.log.open]
  }

  function Payload(sent: seq<Sent>): seq<Write> {
    seq(|sent|, i requires 0 <= i < |sent| => sent[i].write)
  }
}
