/**
 The mocked WebSocket: the client object, the connection to the original server,
 and the microtask queue between them. Listeners never run another listener while
 they run: whatever they do is queued, so their actions are given with the event
 that runs them.
 */
module WebSocketPair {
  import opened Prelude

  type Data = string

  datatype Phase = Connecting | Open | Closing | Closed

  datatype Task =
    | FinishOpen
    | DeliverMessage(data: Data)
    | NotifyOutgoing(data: Data)
    | ForwardOutgoing(data: Data, prevented: bool)
    | FireClose(code: nat)
    | FireServerClose

  datatype ClientEvent = GotOpen | GotMessage(data: Data) | GotForwarded(data: Data) | GotClose(code: nat)

  /** The client object; "deferred" are the messages that wait for its "open" event. */
  datatype Client = Client(
    phase: Phase,
    bufferedAmount: nat,
    deferred: seq<Data>,
    events: seq<ClientEvent>,
    mocked: seq<Data>,
    sent: seq<Data>,
    outgoing: seq<Data>)

  /** Data sent to the original server; the number is its position among the sends that were accepted. */
  datatype Parcel = Parcel(number: nat, data: Data)

  /**
   The connection to the original server; "waiting" is what waits for it to open.
   "closes" counts the close events of the server side, "relays" the closures that
   went from one side to the other.
   */
  datatype Server = Server(
    remote: Option<Phase>,
    waiting: seq<Parcel>,
    ignoresMockClose: bool,
    ignoresRealClose: bool,
    inTime: bool,
    accepted: seq<Parcel>,
    handed: seq<Parcel>,
    closes: nat,
    relays: nat)

  datatype Pair = Pair(client: Client, server: Server, tasks: seq<Task>, decided: bool, forwardsOpen: bool)

  /** What the application and the interceptor may do, at any time and in any listener. */
  datatype Action =
    | AppSend(data: Data)
    | AppClose(code: nat)
    | ClientSend(data: Data)
    | ClientClose(code: nat)
    | ServerConnect
    | ServerSend(data: Data)
    | ServerClose

  datatype Event =
    | Do(act: Action)
    | ConnectionHandled(mocked: bool)
    | ConnectionThrew
    | RunTask(pre: seq<Action>, post: seq<Action>, prevented: bool)
    | RealOpens(acts: seq<Action>)
    | RealMessage(data: Data, acts: seq<Action>, prevented: bool)
    | RealCloses(code: nat, acts: seq<Action>, prevented: bool)

  const Fresh := Pair(
    Client(Connecting, 0, [], [], [], [], []),
    Server(None, [], false, false, false, [], [], 0, 0),
    [], false, false)

  predicate Ended(phase: Phase) {
    phase == Closing || phase == Closed
  }

  function Rank(phase: Phase): nat {
    match phase
    case Connecting => 0
    case Open => 1
    case Closing => 2
    case Closed => 3
  }

  // ---------------------------------------------------------------------
  // Actions
  // ---------------------------------------------------------------------

  function Enqueue(m: Pair, t: Task): Pair {
    m.(tasks := m.tasks + [t])
  }

  /** The internal close of the client: once, and the event comes from a microtask. */
  function CloseClient(m: Pair, code: nat): Pair {
    if Ended(m.client.phase) then m
    else Enqueue(m.(client := m.client.(phase := Closing)), FireClose(code))
  }

  function DoAppSend(m: Pair, data: Data): Pair {
    match m.client.phase
    case Connecting => CloseClient(m, 1000)
    case Open =>
      Enqueue(m.(client := m.client.(bufferedAmount := m.client.bufferedAmount + |data|, sent := m.client.sent + [data])),
              NotifyOutgoing(data))
    case _ => m
  }

  predicate ConfigurableCode(code: nat) {
    code == 1000 || 3000 <= code <= 4999
  }

  function DoConnect(m: Pair): Pair {
    if m.server.remote.Some? then m
    else m.(server := m.server.(remote := Some(Connecting), inTime := m.client.phase != Closed))
  }

  function NextParcel(s: Server, data: Data): Parcel {
    Parcel(|s.accepted|, data)
  }

  /** Without a connection this throws; on a closed one it is ignored. */
  function DoServerSend(m: Pair, data: Data): Pair {
    var s := m.server;
    if s.remote.None? || Ended(s.remote.value) then m
    else if s.remote.value == Connecting then
      m.(server := s.(waiting := s.waiting + [NextParcel(s, data)], accepted := s.accepted + [NextParcel(s, data)]))
    else
      m.(server := s.(handed := s.handed + [NextParcel(s, data)], accepted := s.accepted + [NextParcel(s, data)]))
  }

  function CloseReal(s: Server): Server {
    if s.remote.Some? && !Ended(s.remote.value) then s.(remote := Some(Closing)) else s
  }

  function DoServerClose(m: Pair): Pair {
    if m.server.remote.None? then m
    else if Ended(m.server.remote.value) then m.(server := m.server.(ignoresRealClose := true))
    else Enqueue(m.(server := CloseReal(m.server).(ignoresRealClose := true)), FireServerClose)
  }

  function Act(m: Pair, a: Action): Pair {
    match a
    case AppSend(data) => DoAppSend(m, data)
    case AppClose(code) => if ConfigurableCode(code) then CloseClient(m, code) else m
    case ClientSend(data) =>
      Enqueue(m.(client := m.client.(mocked := m.client.mocked + [data])), DeliverMessage(data))
    case ClientClose(code) => CloseClient(m, code)
    case ServerConnect => DoConnect(m)
    case ServerSend(data) => DoServerSend(m, data)
    case ServerClose => DoServerClose(m)
  }

  function ActAll(m: Pair, acts: seq<Action>): Pair {
    if acts == [] then m else Act(ActAll(m, Init(acts)), Last(acts))
  }

  // ---------------------------------------------------------------------
  // Microtasks and the original server's events
  // ---------------------------------------------------------------------

  function Delivered(messages: seq<Data>): seq<ClientEvent> {
    seq(|messages|, i requires 0 <= i < |messages| => GotMessage(messages[i]))
  }

  /** "open" is dispatched; the messages that waited for it are dispatched by its listeners. */
  function DispatchOpen(c: Client): Client {
    c.(events := c.events + [GotOpen] + Delivered(c.deferred), deferred := [])
  }

  function Deliver(c: Client, data: Data): Client {
    match c.phase
    case Connecting => c.(deferred := c.deferred + [data])
    case Open => c.(events := c.events + [GotMessage(data)])
    case _ => c
  }

  /** A client's close reaches the original connection that existed when "close" was dispatched. */
  function RelayMockClose(s: Server): Server {
    if s.ignoresMockClose then s else CloseReal(s).(relays := s.relays + 1)
  }

  function WithClose(m: Pair, code: nat): Pair {
    m.(client := m.client.(phase := Closed, events := m.client.events + [GotClose(code)]))
  }

  /** The listener that relays the close is there if the connection was when the event was dispatched. */
  function DoFireClose(m: Pair, code: nat, pre: seq<Action>, post: seq<Action>): Pair {
    var m1 := ActAll(WithClose(m, code), pre);
    ActAll(if m.server.remote.Some? then m1.(server := RelayMockClose(m1.server)) else m1, post)
  }

  /** The data leaves the client; without a connection there is nowhere to forward it. */
  function DoNotifyOutgoing(m: Pair, data: Data, prevented: bool): Pair {
    var m1 := m.(client := m.client.(bufferedAmount := 0, outgoing := m.client.outgoing + [data]));
    if m.server.remote.None? then m1 else Enqueue(m1, ForwardOutgoing(data, prevented))
  }

  function DoTask(m: Pair, t: Task, pre: seq<Action>, post: seq<Action>, prevented: bool): Pair {
    match t
    case FinishOpen =>
      if m.client.phase != Connecting then m
      else ActAll(m.(client := DispatchOpen(m.client.(phase := Open))), pre + post)
    case DeliverMessage(data) =>
      if m.client.phase == Open then ActAll(m.(client := Deliver(m.client, data)), pre + post)
      else m.(client := Deliver(m.client, data))
    case NotifyOutgoing(data) => ActAll(DoNotifyOutgoing(m, data, prevented), pre + post)
    case ForwardOutgoing(data, stopped) => if stopped then m else DoServerSend(m, data)
    case FireClose(code) => DoFireClose(m, code, pre, post)
    case FireServerClose => ActAll(m.(server := m.server.(closes := m.server.closes + 1)), pre + post)
  }

  function DoRunTask(m: Pair, pre: seq<Action>, post: seq<Action>, prevented: bool): Pair {
    if m.tasks == [] then m else DoTask(m.(tasks := m.tasks[1..]), m.tasks[0], pre, post, prevented)
  }

  /** What waited for the original connection is handed to it, in order. */
  function HandWaiting(s: Server): Server {
    s.(handed := s.handed + s.waiting, waiting := [])
  }

  function DoRealOpens(m: Pair, acts: seq<Action>): Pair {
    if m.server.remote != Some(Connecting) then m else
      var m1 := m.(server := m.server.(remote := Some(Open)));
      var m2 := ActAll(if m.forwardsOpen then m1.(client := DispatchOpen(m1.client)) else m1, acts);
      m2.(server := HandWaiting(m2.server))
  }

  function DoRealMessage(m: Pair, data: Data, acts: seq<Action>, prevented: bool): Pair {
    if m.server.remote != Some(Open) then m else
      var m1 := ActAll(m, acts);
      if prevented then m1 else m1.(client := m1.client.(events := m1.client.events + [GotForwarded(data)]))
  }

  /** Whether closing the client would do anything: if so, a closure is relayed to it. */
  function RelayRealClose(m: Pair, code: nat): Pair {
    if Ended(m.client.phase) then m
    else CloseClient(m.(server := m.server.(relays := m.server.relays + 1)), code)
  }

  function WithRealClose(m: Pair): Pair {
    m.(server := m.server.(remote := Some(Closed), ignoresMockClose := true, closes := m.server.closes + 1))
  }

  function DoRealCloses(m: Pair, code: nat, acts: seq<Action>, prevented: bool): Pair {
    if m.server.remote.None? || m.server.remote.value == Closed then m
    else if m.server.ignoresRealClose then m.(server := m.server.(remote := Some(Closed)))
    else
      var m1 := ActAll(WithRealClose(m), acts);
      if prevented then m1 else RelayRealClose(m1, code)
  }

  /** The connection listeners are done: the client is mocked, or connected to the original server. */
  function DoConnectionHandled(m: Pair, mocked: bool): Pair {
    if m.decided then m
    else if mocked then Enqueue(m.(decided := true), FinishOpen)
    else DoConnect(m.(decided := true, forwardsOpen := true))
  }

  function Step(m: Pair, e: Event): Pair {
    match e
    case Do(act) => Act(m, act)
    case ConnectionHandled(mocked) => DoConnectionHandled(m, mocked)
    case ConnectionThrew => if m.decided then m else CloseClient(m.(decided := true), 1011)
    case RunTask(pre, post, prevented) => DoRunTask(m, pre, post, prevented)
    case RealOpens(acts) => DoRealOpens(m, acts)
    case RealMessage(data, acts, prevented) => DoRealMessage(m, data, acts, prevented)
    case RealCloses(code, acts, prevented) => DoRealCloses(m, code, acts, prevented)
  }

  function Run(events: seq<Event>): Pair {
    if events == [] then Fresh else Step(Run(Init(events)), Last(events))
  }

  // ---------------------------------------------------------------------
  // What a queue holds, and what the client saw
  // ---------------------------------------------------------------------

  /** The messages, outgoing data and close events still in a queue. */
  datatype Tally = Tally(messages: seq<Data>, outgoing: seq<Data>, closes: nat, serverCloses: nat)

  /** One more task at the end of the queue. */
  function Count(q: Tally, t: Task): Tally {
    match t
    case DeliverMessage(data) => q.(messages := q.messages + [data])
    case NotifyOutgoing(data) => q.(outgoing := q.outgoing + [data])
    case FireClose(_) => q.(closes := q.closes + 1)
    case FireServerClose => q.(serverCloses := q.serverCloses + 1)
    case _ => q
  }

  /** One more task at the head of the queue. */
  function Ahead(t: Task, q: Tally): Tally {
    match t
    case DeliverMessage(data) => q.(messages := [data] + q.messages)
    case NotifyOutgoing(data) => q.(outgoing := [data] + q.outgoing)
    case FireClose(_) => q.(closes := q.closes + 1)
    case FireServerClose => q.(serverCloses := q.serverCloses + 1)
    case _ => q
  }

  function Queued(tasks: seq<Task>): Tally {
    if tasks == [] then Tally([], [], 0, 0) else Count(Queued(Init(tasks)), Last(tasks))
  }

  lemma QueuedSnoc(tasks: seq<Task>, t: Task)
    ensures Queued(tasks + [t]) == Count(Queued(tasks), t)
  {
    InitOfSnoc(tasks, t);
  }

  lemma CountAhead(t: Task, q: Tally, u: Task)
    ensures Count(Ahead(t, q), u) == Ahead(t, Count(q, u))
  {
  }

  lemma {:induction false} QueuedHead(tasks: seq<Task>)
    requires tasks != []
    ensures Queued(tasks) == Ahead(tasks[0], Queued(tasks[1..]))
  {
    if |tasks| > 1 {
      QueuedHead(Init(tasks));
      assert Init(tasks)[1..] == Init(tasks[1..]) && Last(tasks[1..]) == Last(tasks);
      CountAhead(tasks[0], Queued(Init(tasks[1..])), Last(tasks));
    }
  }

  /**
   What the client saw: its mocked messages, how often it opened and closed, and
   whether every mocked message came after the one "open" and before the one "close".
   */
  datatype Seen = Seen(messages: seq<Data>, opens: nat, closes: nat, ordered: bool)

  function See(v: Seen, e: ClientEvent): Seen {
    match e
    case GotOpen => v.(opens := v.opens + 1, ordered := v.ordered && v.opens == 0 && v.closes == 0)
    case GotMessage(data) =>
      v.(messages := v.messages + [data], ordered := v.ordered && v.opens == 1 && v.closes == 0)
    case GotForwarded(_) => v
    case GotClose(_) => v.(closes := v.closes + 1, ordered := v.ordered && v.closes == 0)
  }

  function View(events: seq<ClientEvent>): Seen {
    if events == [] then Seen([], 0, 0, true) else See(View(Init(events)), Last(events))
  }

  lemma ViewSnoc(events: seq<ClientEvent>, e: ClientEvent)
    ensures View(events + [e]) == See(View(events), e)
  {
    InitOfSnoc(events, e);
  }

  lemma {:induction false} ViewDelivered(events: seq<ClientEvent>, messages: seq<Data>)
    ensures var v, v' := View(events), View(events + Delivered(messages));
            v' == v.(messages := v.messages + messages, ordered := v'.ordered)
            && (v.ordered && v.opens == 1 && v.closes == 0 ==> v'.ordered)
  {
    if messages == [] {
      assert events + Delivered(messages) == events;
    } else {
      ViewDelivered(events, Init(messages));
      ViewSnoc(events + Delivered(Init(messages)), GotMessage(Last(messages)));
      assert events + Delivered(messages) == (events + Delivered(Init(messages))) + [GotMessage(Last(messages))];
      assert messages == Init(messages) + [Last(messages)];
    }
  }

  // ---------------------------------------------------------------------
  // Invariants
  // ---------------------------------------------------------------------

  /** Closing means one close event is queued, closed means it was dispatched, and otherwise there is none. */
  predicate CloseOnce(phase: Phase, closes: nat, q: Tally) {
    && q.closes == (if phase == Closing then 1 else 0)
    && closes == (if phase == Closed then 1 else 0)
  }

  /** The server side dispatched or queued one close event at most, and then the original connection is ending. */
  predicate ServerCloseOnce(s: Server, q: Tally) {
    && s.closes + q.serverCloses <= 1
    && (s.closes + q.serverCloses == 1 ==>
          s.remote == Some(Closed) || (s.remote == Some(Closing) && s.ignoresRealClose))
  }

  /** A closure crosses from one side to the other once at most. */
  predicate RelayOnce(phase: Phase, s: Server) {
    && s.relays <= 1
    && (s.relays == 1 ==> phase == Closed || (phase == Closing && s.ignoresMockClose))
    && (s.ignoresMockClose ==> s.remote == Some(Closed))
  }

  /** The mocked messages dispatched, then those waiting for "open", are the first ones sent, in order. */
  predicate MessagesInOrder(c: Client, messages: seq<Data>, q: Tally) {
    && messages + c.deferred <= c.mocked
    && (!Ended(c.phase) ==> messages + c.deferred + q.messages == c.mocked)
    && (c.phase == Open ==> c.deferred == [])
  }

  predicate OutgoingInOrder(c: Client, q: Tally) {
    c.outgoing + q.outgoing == c.sent
  }

  predicate Closures(c: Client, v: Seen, s: Server, q: Tally) {
    CloseOnce(c.phase, v.closes, q) && ServerCloseOnce(s, q) && RelayOnce(c.phase, s)
  }

  predicate Traffic(c: Client, v: Seen, q: Tally) {
    MessagesInOrder(c, v.messages, q) && OutgoingInOrder(c, q)
  }

  predicate CoreOf(m: Pair, v: Seen, q: Tally) {
    Closures(m.client, v, m.server, q) && Traffic(m.client, v, q)
  }

  predicate Core(m: Pair) {
    CoreOf(m, View(m.client.events), Queued(m.tasks))
  }

  // ---------------------------------------------------------------------
  // Actions keep the invariants
  // ---------------------------------------------------------------------

  /** What no action does: dispatch, open, or undo. */
  predicate ClientForward(c: Client, c': Client) {
    && c'.events == c.events && c'.deferred == c.deferred
    && (c'.phase == c.phase || (!Ended(c.phase) && c'.phase == Closing))
  }

  predicate ServerForward(phase: Phase, s: Server, s': Server) {
    && (s.remote.Some? ==> s'.remote.Some? && Rank(s'.remote.value) >= Rank(s.remote.value) && s'.inTime == s.inTime)
    && (s.remote.None? && s'.inTime && !s.inTime ==> phase != Closed)
    && s'.ignoresMockClose == s.ignoresMockClose
    && s'.relays == s.relays && s'.closes == s.closes
  }

  predicate Forward(m: Pair, m': Pair) {
    && ClientForward(m.client, m'.client)
    && ServerForward(m.client.phase, m.server, m'.server)
    && m'.decided == m.decided && m'.forwardsOpen == m.forwardsOpen
  }

  lemma {:induction false} ServerActGoesForward(m: Pair, a: Action)
    ensures var m' := Act(m, a); ServerForward(m.client.phase, m.server, m'.server)
  {
  }

  lemma ClientActGoesForward(m: Pair, a: Action)
    ensures var m' := Act(m, a);
            ClientForward(m.client, m'.client) && m'.decided == m.decided && m'.forwardsOpen == m.forwardsOpen
  {
  }

  lemma ActGoesForward(m: Pair, a: Action)
    ensures Forward(m, Act(m, a))
  {
    ClientActGoesForward(m, a);
    ServerActGoesForward(m, a);
  }

  lemma {:induction false} ActAllGoesForward(m: Pair, acts: seq<Action>)
    ensures Forward(m, ActAll(m, acts))
  {
    if acts != [] {
      ActAllGoesForward(m, Init(acts));
      ActGoesForward(ActAll(m, Init(acts)), Last(acts));
    }
  }

  lemma ClosingKeeps(m: Pair, code: nat, v: Seen, q: Tally)
    requires CoreOf(m, v, q) && !Ended(m.client.phase)
    ensures CoreOf(CloseClient(m, code), v, Count(q, FireClose(code)))
  {
  }

  lemma SendingKeeps(m: Pair, data: Data, v: Seen, q: Tally)
    requires CoreOf(m, v, q) && m.client.phase == Open
    ensures CoreOf(DoAppSend(m, data), v, Count(q, NotifyOutgoing(data)))
  {
  }

  lemma ClientSendKeeps(m: Pair, data: Data)
    requires Core(m)
    ensures Core(Act(m, ClientSend(data)))
  {
    var v, q := View(m.client.events), Queued(m.tasks);
    QueuedSnoc(m.tasks, DeliverMessage(data));
    assert CoreOf(Act(m, ClientSend(data)), v, Count(q, DeliverMessage(data)));
  }

  lemma {:induction false} ServerCloseKeeps(m: Pair)
    requires Core(m)
    ensures Core(DoServerClose(m))
  {
    var v, q := View(m.client.events), Queued(m.tasks);
    QueuedSnoc(m.tasks, FireServerClose);
    if m.server.remote.Some? && !Ended(m.server.remote.value) {
      assert CoreOf(DoServerClose(m), v, Count(q, FireServerClose));
    } else {
      assert CoreOf(DoServerClose(m), v, q);
    }
  }

  lemma {:induction false} ServerActKeeps(m: Pair, a: Action)
    requires Core(m) && (a.ServerConnect? || a.ServerSend?)
    ensures Core(Act(m, a))
  {
    assert CoreOf(Act(m, a), View(m.client.events), Queued(m.tasks));
  }

  lemma {:induction false} ActKeeps(m: Pair, a: Action)
    requires Core(m)
    ensures Core(Act(m, a))
  {
    var v, q := View(m.client.events), Queued(m.tasks);
    match a
    case AppSend(data) =>
      QueuedSnoc(m.tasks, FireClose(1000));
      QueuedSnoc(m.tasks, NotifyOutgoing(data));
      if !Ended(m.client.phase) { ClosingKeeps(m, 1000, v, q); }
      if m.client.phase == Open { SendingKeeps(m, data, v, q); }
    case AppClose(code) =>
      QueuedSnoc(m.tasks, FireClose(code));
      if !Ended(m.client.phase) { ClosingKeeps(m, code, v, q); }
    case ClientSend(data) => ClientSendKeeps(m, data);
    case ClientClose(code) =>
      QueuedSnoc(m.tasks, FireClose(code));
      if !Ended(m.client.phase) { ClosingKeeps(m, code, v, q); }
    case ServerClose => ServerCloseKeeps(m);
    case ServerConnect => ServerActKeeps(m, a);
    case ServerSend(data) => ServerActKeeps(m, a);
  }

  lemma {:induction false} ActAllKeeps(m: Pair, acts: seq<Action>)
    requires Core(m)
    ensures Core(ActAll(m, acts))
  {
    if acts != [] {
      ActAllKeeps(m, Init(acts));
      ActKeeps(ActAll(m, Init(acts)), Last(acts));
    }
  }

  // ---------------------------------------------------------------------
  // Events keep the invariants
  // ---------------------------------------------------------------------

  /** A task taken off the queue is still due. */
  predicate CoreWith(m: Pair, t: Task) {
    CoreOf(m, View(m.client.events), Ahead(t, Queued(m.tasks)))
  }

  lemma DispatchOpenKeeps(m: Pair)
    requires Core(m)
    ensures Core(m.(client := DispatchOpen(m.client)))
  {
    ViewSnoc(m.client.events, GotOpen);
    ViewDelivered(m.client.events + [GotOpen], m.client.deferred);
    var c' := DispatchOpen(m.client);
    var v' := View(c'.events);
    assert v'.messages + [] == View(m.client.events).messages + m.client.deferred;
    assert CoreOf(m.(client := c'), v', Queued(m.tasks));
  }

  lemma FinishOpenKeeps(m: Pair, acts: seq<Action>)
    requires CoreWith(m, FinishOpen)
    ensures Core(DoTask(m, FinishOpen, acts, [], false))
  {
    assert acts + [] == acts;
    if m.client.phase == Connecting {
      DispatchOpenKeeps(m);
      var m0 := m.(client := DispatchOpen(m.client));
      var m1 := m.(client := DispatchOpen(m.client.(phase := Open)));
      assert m1 == m0.(client := m0.client.(phase := Open));
      assert CoreOf(m1, View(m0.client.events), Queued(m.tasks));
      ActAllKeeps(m1, acts);
    }
  }

  lemma {:induction false} DeliverKeeps(m: Pair, data: Data)
    requires CoreWith(m, DeliverMessage(data))
    ensures Core(m.(client := Deliver(m.client, data)))
  {
    var v, q := View(m.client.events), Queued(m.tasks);
    ViewSnoc(m.client.events, GotMessage(data));
    var taken := v.messages + m.client.deferred;
    match m.client.phase
    case Connecting =>
      assert v.messages + (m.client.deferred + [data]) + q.messages == taken + ([data] + q.messages);
    case Open =>
      assert (v.messages + [data]) + [] + q.messages == taken + ([data] + q.messages);
    case _ =>
  }

  lemma NotifyKeeps(m: Pair, data: Data, v: Seen, q: Tally)
    requires CoreOf(m, v, Ahead(NotifyOutgoing(data), q))
    ensures CoreOf(m.(client := m.client.(bufferedAmount := 0, outgoing := m.client.outgoing + [data])), v, q)
  {
    assert (m.client.outgoing + [data]) + q.outgoing == m.client.outgoing + ([data] + q.outgoing);
  }

  lemma ServerClosedKeeps(m: Pair)
    requires CoreWith(m, FireServerClose)
    ensures Core(m.(server := m.server.(closes := m.server.closes + 1)))
  {
    assert CoreOf(m.(server := m.server.(closes := m.server.closes + 1)), View(m.client.events), Queued(m.tasks));
  }

  lemma {:induction false} ClientClosedKeeps(m: Pair, code: nat)
    requires CoreWith(m, FireClose(code))
    ensures Core(WithClose(m, code)) && m.client.phase == Closing
    ensures m.server.ignoresMockClose || m.server.relays == 0
  {
    var v, q := View(m.client.events), Queued(m.tasks);
    ViewSnoc(m.client.events, GotClose(code));
    hide View, Queued;
    ClosedOnce(m, code, v, q);
    ClosedTraffic(m, code, v, q);
  }

  lemma {:induction false} ClosedOnce(m: Pair, code: nat, v: Seen, q: Tally)
    requires Closures(m.client, v, m.server, Ahead(FireClose(code), q))
    ensures Closures(WithClose(m, code).client, See(v, GotClose(code)), m.server, q) && m.client.phase == Closing
    ensures m.server.ignoresMockClose || m.server.relays == 0
  {
  }

  lemma {:induction false} ClosedTraffic(m: Pair, code: nat, v: Seen, q: Tally)
    requires Traffic(m.client, v, Ahead(FireClose(code), q))
    ensures Traffic(WithClose(m, code).client, See(v, GotClose(code)), q)
  {
  }

  lemma RelayMockCloseKeeps(m: Pair)
    requires Core(m) && m.client.phase == Closed && m.server.remote.Some?
    requires m.server.ignoresMockClose || m.server.relays == 0
    ensures Core(m.(server := RelayMockClose(m.server)))
  {
    assert CoreOf(m.(server := RelayMockClose(m.server)), View(m.client.events), Queued(m.tasks));
  }

  lemma FireCloseKeeps(m: Pair, code: nat, pre: seq<Action>, post: seq<Action>)
    requires CoreWith(m, FireClose(code))
    ensures Core(DoFireClose(m, code, pre, post))
  {
    ClientClosedKeeps(m, code);
    var m1 := ActAll(WithClose(m, code), pre);
    ActAllKeeps(WithClose(m, code), pre);
    ActAllGoesForward(WithClose(m, code), pre);
    if m.server.remote.Some? {
      RelayMockCloseKeeps(m1);
      ActAllKeeps(m1.(server := RelayMockClose(m1.server)), post);
    } else {
      ActAllKeeps(m1, post);
    }
  }

  lemma {:induction false} ForwardKeeps(m: Pair, data: Data, stopped: bool)
    requires CoreWith(m, ForwardOutgoing(data, stopped))
    ensures Core(if stopped then m else DoServerSend(m, data))
  {
    assert Ahead(ForwardOutgoing(data, stopped), Queued(m.tasks)) == Queued(m.tasks);
    assert Act(m, ServerSend(data)) == DoServerSend(m, data);
    hide CoreOf, View, Queued, Act, DoServerSend;
    ServerActKeeps(m, ServerSend(data));
  }

  lemma {:induction false} NotifyTaskKeeps(m: Pair, data: Data, prevented: bool)
    requires CoreWith(m, NotifyOutgoing(data))
    ensures Core(DoNotifyOutgoing(m, data, prevented))
  {
    NotifyKeeps(m, data, View(m.client.events), Queued(m.tasks));
    hide CoreOf, View;
    QueuedSnoc(m.tasks, ForwardOutgoing(data, prevented));
  }

  lemma {:induction false} TaskKeeps(m: Pair, t: Task, pre: seq<Action>, post: seq<Action>, prevented: bool)
    requires CoreWith(m, t)
    ensures Core(DoTask(m, t, pre, post, prevented))
  {
    hide CoreOf, View, Queued, ActAll;
    assert (pre + post) + [] == pre + post;
    match t
    case FinishOpen => FinishOpenKeeps(m, pre + post);
    case DeliverMessage(data) =>
      DeliverKeeps(m, data);
      ActAllKeeps(m.(client := Deliver(m.client, data)), pre + post);
    case NotifyOutgoing(data) =>
      NotifyTaskKeeps(m, data, prevented);
      ActAllKeeps(DoNotifyOutgoing(m, data, prevented), pre + post);
    case ForwardOutgoing(data, stopped) => ForwardKeeps(m, data, stopped);
    case FireClose(code) => FireCloseKeeps(m, code, pre, post);
    case FireServerClose =>
      ServerClosedKeeps(m);
      ActAllKeeps(m.(server := m.server.(closes := m.server.closes + 1)), pre + post);
  }

  lemma RealOpensKeeps(m: Pair, acts: seq<Action>)
    requires Core(m)
    ensures Core(DoRealOpens(m, acts))
  {
    if m.server.remote == Some(Connecting) {
      var m1 := m.(server := m.server.(remote := Some(Open)));
      assert CoreOf(m1, View(m.client.events), Queued(m.tasks));
      DispatchOpenKeeps(m1);
      var m2 := if m.forwardsOpen then m1.(client := DispatchOpen(m1.client)) else m1;
      ActAllKeeps(m2, acts);
      var m3 := ActAll(m2, acts);
      assert CoreOf(m3.(server := HandWaiting(m3.server)), View(m3.client.events), Queued(m3.tasks));
    }
  }

  lemma RealMessageKeeps(m: Pair, data: Data, acts: seq<Action>, prevented: bool)
    requires Core(m)
    ensures Core(DoRealMessage(m, data, acts, prevented))
  {
    ActAllKeeps(m, acts);
    var m1 := ActAll(m, acts);
    ViewSnoc(m1.client.events, GotForwarded(data));
    assert CoreOf(m1.(client := m1.client.(events := m1.client.events + [GotForwarded(data)])),
                  View(m1.client.events), Queued(m1.tasks));
  }

  lemma RelayRealCloseKeeps(m: Pair, code: nat)
    requires Core(m) && m.server.ignoresMockClose
    ensures Core(RelayRealClose(m, code))
  {
    var v, q := View(m.client.events), Queued(m.tasks);
    QueuedSnoc(m.tasks, FireClose(code));
    if !Ended(m.client.phase) {
      assert CoreOf(RelayRealClose(m, code), v, Count(q, FireClose(code)));
    }
  }

  lemma RealClosedKeeps(m: Pair)
    requires Core(m) && m.server.remote.Some? && m.server.remote.value != Closed
    ensures Core(m.(server := m.server.(remote := Some(Closed))))
    ensures !m.server.ignoresRealClose ==> Core(WithRealClose(m))
  {
    var v, q := View(m.client.events), Queued(m.tasks);
    assert CoreOf(m.(server := m.server.(remote := Some(Closed))), v, q);
    if !m.server.ignoresRealClose {
      assert CoreOf(WithRealClose(m), v, q);
    }
  }

  lemma RealClosesKeeps(m: Pair, code: nat, acts: seq<Action>, prevented: bool)
    requires Core(m)
    ensures Core(DoRealCloses(m, code, acts, prevented))
  {
    if m.server.remote.Some? && m.server.remote.value != Closed {
      RealClosedKeeps(m);
      if !m.server.ignoresRealClose {
        var m0 := WithRealClose(m);
        ActAllKeeps(m0, acts);
        ActAllGoesForward(m0, acts);
        RelayRealCloseKeeps(ActAll(m0, acts), code);
      }
    }
  }

  lemma HandledKeeps(m: Pair, mocked: bool)
    requires Core(m)
    ensures Core(DoConnectionHandled(m, mocked))
  {
    var v, q := View(m.client.events), Queued(m.tasks);
    QueuedSnoc(m.tasks, FinishOpen);
    if !m.decided {
      if mocked {
        assert CoreOf(DoConnectionHandled(m, mocked), v, q);
      } else {
        var m1 := m.(decided := true, forwardsOpen := true);
        assert CoreOf(m1, v, q);
        ServerActKeeps(m1, ServerConnect);
      }
    }
  }

  lemma StepKeeps(m: Pair, e: Event)
    requires Core(m)
    ensures Core(Step(m, e))
  {
    match e
    case Do(act) => ActKeeps(m, act);
    case ConnectionHandled(mocked) => HandledKeeps(m, mocked);
    case ConnectionThrew =>
      QueuedSnoc(m.tasks, FireClose(1011));
      if !Ended(m.client.phase) { ClosingKeeps(m.(decided := true), 1011, View(m.client.events), Queued(m.tasks)); }
    case RunTask(pre, post, prevented) =>
      if m.tasks != [] {
        QueuedHead(m.tasks);
        assert CoreWith(m.(tasks := m.tasks[1..]), m.tasks[0]);
        TaskKeeps(m.(tasks := m.tasks[1..]), m.tasks[0], pre, post, prevented);
      }
    case RealOpens(acts) => RealOpensKeeps(m, acts);
    case RealMessage(data, acts, prevented) => RealMessageKeeps(m, data, acts, prevented);
    case RealCloses(code, acts, prevented) => RealClosesKeeps(m, code, acts, prevented);
  }

  lemma {:induction false} RunKeeps(events: seq<Event>)
    ensures Core(Run(events))
  {
    if events != [] {
      RunKeeps(Init(events));
      StepKeeps(Run(Init(events)), Last(events));
    }
  }

  // ---------------------------------------------------------------------
  // Over every interleaving
  // ---------------------------------------------------------------------

  /**
   However many parties close however often: the client gets one close event once it is
   closed and none before, the server side gets one at most, and a closure is relayed
   from one side to the other once at most, so closing never echoes.
   */
  lemma ClosesOnce(events: seq<Event>)
    ensures var m := Run(events);
            && View(m.client.events).closes == (if m.client.phase == Closed then 1 else 0)
            && m.server.closes <= 1
            && m.server.relays <= 1
  {
    RunKeeps(events);
  }

  lemma StepNeverReopens(m: Pair, e: Event)
    ensures Rank(Step(m, e).client.phase) >= Rank(m.client.phase)
  {
    match e
    case Do(act) => ClientActGoesForward(m, act);
    case RunTask(pre, post, prevented) =>
      if m.tasks != [] { TaskNeverReopens(m.(tasks := m.tasks[1..]), m.tasks[0], pre, post, prevented); }
    case RealOpens(acts) =>
      var m1 := m.(server := m.server.(remote := Some(Open)));
      ActAllGoesForward(if m.forwardsOpen then m1.(client := DispatchOpen(m1.client)) else m1, acts);
    case RealMessage(_, acts, _) => ActAllGoesForward(m, acts);
    case RealCloses(_, acts, _) => ActAllGoesForward(WithRealClose(m), acts);
    case _ =>
  }

  lemma TaskNeverReopens(m: Pair, t: Task, pre: seq<Action>, post: seq<Action>, prevented: bool)
    ensures Rank(DoTask(m, t, pre, post, prevented).client.phase) >= Rank(m.client.phase)
  {
    match t
    case FinishOpen => ActAllGoesForward(m.(client := DispatchOpen(m.client.(phase := Open))), pre + post);
    case DeliverMessage(data) => ActAllGoesForward(m.(client := Deliver(m.client, data)), pre + post);
    case NotifyOutgoing(data) => ActAllGoesForward(DoNotifyOutgoing(m, data, prevented), pre + post);
    case ForwardOutgoing(_, _) =>
    case FireClose(code) =>
      ActAllGoesForward(WithClose(m, code), pre);
      var m1 := ActAll(WithClose(m, code), pre);
      ActAllGoesForward(if m.server.remote.Some? then m1.(server := RelayMockClose(m1.server)) else m1, post);
    case FireServerClose => ActAllGoesForward(m.(server := m.server.(closes := m.server.closes + 1)), pre + post);
  }

  /** The client's ready state never decreases. */
  lemma {:induction false} NeverReopens(events: seq<Event>, more: seq<Event>)
    ensures Rank(Run(events + more).client.phase) >= Rank(Run(events).client.phase)
  {
    if more == [] {
      assert events + more == events;
    } else {
      NeverReopens(events, Init(more));
      assert Init(events + more) == events + Init(more) && Last(events + more) == Last(more);
      StepNeverReopens(Run(events + Init(more)), Last(more));
    }
  }

  /** What a microtask still to run, on its own, brings with it. */
  function Weight(tasks: seq<Task>): nat {
    if tasks == [] then 0 else (if tasks[0].NotifyOutgoing? then 2 else 1) + Weight(tasks[1..])
  }

  lemma {:induction false} WeightSnoc(tasks: seq<Task>, t: Task)
    ensures Weight(tasks + [t]) == Weight(tasks) + (if t.NotifyOutgoing? then 2 else 1)
  {
    if tasks != [] {
      assert (tasks + [t])[1..] == tasks[1..] + [t];
      WeightSnoc(tasks[1..], t);
    }
  }

  lemma IdleTaskShrinks(m: Pair)
    requires m.tasks != []
    ensures Weight(DoRunTask(m, [], [], false).tasks) < Weight(m.tasks)
  {
    var m0 := m.(tasks := m.tasks[1..]);
    if m.tasks[0].NotifyOutgoing? {
      WeightSnoc(m0.tasks, ForwardOutgoing(m.tasks[0].data, false));
    }
  }

  lemma {:induction false} IdleTaskSendsNothing(m: Pair)
    ensures var c := DoRunTask(m, [], [], false).client; c.mocked == m.client.mocked && c.sent == m.client.sent
  {
  }

  /** The microtasks run to the end, nobody adding anything. */
  function Drain(m: Pair): Pair
    decreases Weight(m.tasks)
  {
    if m.tasks == [] then m else
      IdleTaskShrinks(m);
      Drain(DoRunTask(m, [], [], false))
  }

  lemma {:induction false} DrainKeeps(m: Pair)
    requires Core(m)
    ensures Core(Drain(m)) && Drain(m).tasks == [] && Rank(Drain(m).client.phase) >= Rank(m.client.phase)
    ensures Drain(m).client.mocked == m.client.mocked && Drain(m).client.sent == m.client.sent
    decreases Weight(m.tasks)
  {
    if m.tasks != [] {
      var e := RunTask([], [], false);
      assert Step(m, e) == DoRunTask(m, [], [], false);
      IdleTaskShrinks(m);
      IdleTaskSendsNothing(m);
      StepKeeps(m, e);
      StepNeverReopens(m, e);
      DrainKeeps(DoRunTask(m, [], [], false));
    }
  }

  /**
   Left alone, the pair comes to rest: a client that anybody closed is closed with its
   one close event, one that is still open has dispatched every mocked message, in order,
   and all outgoing data was announced, in order.
   */
  lemma ComesToRest(events: seq<Event>)
    ensures var m, m' := Run(events), Drain(Run(events));
            && m'.tasks == [] && m'.client.phase != Closing
            && (Ended(m.client.phase) ==> m'.client.phase == Closed && View(m'.client.events).closes == 1)
            && (m'.client.phase == Open ==> View(m'.client.events).messages == m.client.mocked)
            && m'.client.outgoing == m.client.sent
  {
    RunKeeps(events);
    DrainKeeps(Run(events));
    var m' := Drain(Run(events));
    assert Queued(m'.tasks) == Tally([], [], 0, 0);
  }

  /** Mocked messages: dispatched in the order sent, each at most once, none skipped. */
  lemma MessagesComeInOrder(events: seq<Event>)
    ensures View(Run(events).client.events).messages <= Run(events).client.mocked
  {
    RunKeeps(events);
    var m := Run(events);
    assert View(m.client.events).messages <= View(m.client.events).messages + m.client.deferred;
  }

  // ---------------------------------------------------------------------
  // Messages and the client's own events
  // ---------------------------------------------------------------------

  predicate MockedMode(events: seq<Event>) {
    ConnectionHandled(false) !in events
  }

  predicate OpensOnce(m: Pair, v: Seen) {
    && v.ordered && !m.forwardsOpen
    && (m.client.phase == Connecting ==> v.opens == 0)
    && (m.client.phase == Open ==> v.opens == 1)
  }

  predicate Opened(m: Pair) {
    OpensOnce(m, View(m.client.events))
  }

  lemma ActAllOpened(m: Pair, acts: seq<Action>)
    requires Opened(m)
    ensures Opened(ActAll(m, acts))
  {
    ActAllGoesForward(m, acts);
  }

  lemma {:induction false} FinishOpenOpened(m: Pair, acts: seq<Action>)
    requires Opened(m) && CoreWith(m, FinishOpen)
    ensures Opened(DoTask(m, FinishOpen, acts, [], false))
  {
    assert acts + [] == acts;
    if m.client.phase == Connecting {
      DispatchedOpened(m);
      hide ActAll, DispatchOpen, Opened, CoreWith;
      ActAllOpened(m.(client := DispatchOpen(m.client.(phase := Open))), acts);
    }
  }

  lemma {:induction false} DispatchedOpened(m: Pair)
    requires Opened(m) && m.client.phase == Connecting && View(m.client.events).closes == 0
    ensures Opened(m.(client := DispatchOpen(m.client.(phase := Open))))
  {
    ViewSnoc(m.client.events, GotOpen);
    hide View;
    ViewDelivered(m.client.events + [GotOpen], m.client.deferred);
  }

  lemma DeliverOpened(m: Pair, data: Data)
    requires Opened(m) && CoreWith(m, DeliverMessage(data))
    ensures Opened(m.(client := Deliver(m.client, data)))
  {
    ViewSnoc(m.client.events, GotMessage(data));
  }

  lemma FireCloseOpened(m: Pair, code: nat, pre: seq<Action>, post: seq<Action>)
    requires Opened(m) && CoreWith(m, FireClose(code))
    ensures Opened(DoFireClose(m, code, pre, post))
  {
    ViewSnoc(m.client.events, GotClose(code));
    ActAllOpened(WithClose(m, code), pre);
    var m1 := ActAll(WithClose(m, code), pre);
    ActAllOpened(if m.server.remote.Some? then m1.(server := RelayMockClose(m1.server)) else m1, post);
  }

  lemma {:induction false} TaskOpened(m: Pair, t: Task, pre: seq<Action>, post: seq<Action>, prevented: bool)
    requires Opened(m) && CoreWith(m, t)
    ensures Opened(DoTask(m, t, pre, post, prevented))
  {
    hide ActAll, View, Queued, CoreOf;
    assert (pre + post) + [] == pre + post;
    match t
    case FinishOpen => FinishOpenOpened(m, pre + post);
    case DeliverMessage(data) =>
      DeliverOpened(m, data);
      ActAllOpened(m.(client := Deliver(m.client, data)), pre + post);
    case NotifyOutgoing(data) => ActAllOpened(DoNotifyOutgoing(m, data, prevented), pre + post);
    case ForwardOutgoing(_, _) =>
    case FireClose(code) => FireCloseOpened(m, code, pre, post);
    case FireServerClose => ActAllOpened(m.(server := m.server.(closes := m.server.closes + 1)), pre + post);
  }

  lemma {:induction false} StepOpened(m: Pair, e: Event)
    requires Opened(m) && Core(m) && e != ConnectionHandled(false)
    ensures Opened(Step(m, e))
  {
    hide ActAll, Act, View, Queued, Closures, Traffic;
    match e
    case Do(act) => ClientActGoesForward(m, act);
    case ConnectionHandled(_) =>
    case ConnectionThrew =>
    case RunTask(pre, post, prevented) =>
      if m.tasks != [] {
        QueuedHead(m.tasks);
        TaskOpened(m.(tasks := m.tasks[1..]), m.tasks[0], pre, post, prevented);
      }
    case RealOpens(acts) => ActAllOpened(m.(server := m.server.(remote := Some(Open))), acts);
    case RealMessage(data, acts, _) =>
      ActAllOpened(m, acts);
      ViewSnoc(ActAll(m, acts).client.events, GotForwarded(data));
    case RealCloses(_, acts, _) => ActAllOpened(WithRealClose(m), acts);
  }

  lemma {:induction false} RunOpened(events: seq<Event>)
    requires MockedMode(events)
    ensures Opened(Run(events))
  {
    if events != [] {
      InitLast(events);
      RunOpened(Init(events));
      RunKeeps(Init(events));
      StepOpened(Run(Init(events)), Last(events));
    }
  }

  /** A mocked client opens once at most, before it closes, and gets mocked messages only in between. */
  lemma MessagesOnlyWhileOpen(events: seq<Event>)
    requires MockedMode(events)
    ensures View(Run(events).client.events).ordered
    ensures Run(events).client.phase == Open ==> View(Run(events).client.events).opens == 1
  {
    RunOpened(events);
  }

  lemma RunSnoc(events: seq<Event>, e: Event)
    ensures Run(events + [e]) == Step(Run(events), e)
  {
    InitOfSnoc(events, e);
  }
}
