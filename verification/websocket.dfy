/**
 The mocked WebSocket as an object: the fields of the client, of its transport and of
 the server connection, and the microtask queue. Every method takes the step of
 WebSocketPair that bears its name.
 */
module WebSockets {
  import opened Prelude
  import opened W = WebSocketPair
  import opened WebSocketOutcomes

  class MockedWebSocket {
    // The client.
    var readyState: Phase
    var bufferedAmount: nat
    var deferredMessages: seq<Data>
    var seen: ClientLog

    // The connection to the original server.
    var realWebSocket: Option<Phase>
    var waitingSends: seq<Parcel>
    var mockCloseAborted: bool
    var realCloseAborted: bool
    var traffic: ServerLog

    var microtasks: seq<Task>
    var decided: bool
    var forwardsOpen: bool

    ghost function Model(): Pair
      reads this
    {
      Pair(
        Client(readyState, bufferedAmount, deferredMessages, seen.events, seen.mocked, seen.sent, seen.outgoing),
        Server(realWebSocket, waitingSends, mockCloseAborted, realCloseAborted, traffic.inTime,
               traffic.accepted, traffic.handed, traffic.closes, traffic.relays),
        microtasks, decided, forwardsOpen)
    }

    constructor ()
      ensures Model() == Fresh
    {
      readyState, bufferedAmount, deferredMessages := Connecting, 0, [];
      seen := ClientLog([], [], [], []);
      realWebSocket, waitingSends, mockCloseAborted, realCloseAborted := None, [], false, false;
      traffic := ServerLog(false, [], [], 0, 0);
      microtasks, decided, forwardsOpen := [], false, false;
    }

    method QueueMicrotask(t: Task)
      modifies this`microtasks
      ensures microtasks == old(microtasks) + [t]
    {
      microtasks := microtasks + [t];
    }

    /** The client's internal close. */
    method CloseSocket(code: nat)
      modifies this`readyState, this`microtasks
      ensures Model() == CloseClient(old(Model()), code)
    {
      if readyState == Closing || readyState == Closed {
        return;
      }
      readyState := Closing;
      QueueMicrotask(FireClose(code));
    }

    method Send(data: Data)
      modifies this`readyState, this`bufferedAmount, this`seen, this`microtasks
      ensures Model() == DoAppSend(old(Model()), data)
    {
      if readyState == Connecting {
        CloseSocket(1000);
        return;
      }
      if readyState == Closing || readyState == Closed {
        return;
      }
      bufferedAmount := bufferedAmount + |data|;
      seen := seen.(sent := seen.sent + [data]);
      QueueMicrotask(NotifyOutgoing(data));
    }

    method Close(code: nat)
      modifies this`readyState, this`microtasks
      ensures Model() == Act(old(Model()), AppClose(code))
    {
      if code == 1000 || 3000 <= code <= 4999 {
        CloseSocket(code);
      }
    }

    /** The interceptor sends to the client. */
    method TransportSend(data: Data)
      modifies this`seen, this`microtasks
      ensures Model() == Act(old(Model()), ClientSend(data))
    {
      seen := seen.(mocked := seen.mocked + [data]);
      QueueMicrotask(DeliverMessage(data));
    }

    method Connect()
      modifies this`realWebSocket, this`traffic
      ensures Model() == DoConnect(old(Model()))
    {
      if realWebSocket.Some? {
        return;
      }
      realWebSocket := Some(Connecting);
      traffic := traffic.(inTime := readyState != Closed);
    }

    method SendToServer(data: Data)
      modifies this`waitingSends, this`traffic
      ensures Model() == DoServerSend(old(Model()), data)
    {
      if realWebSocket.None? || realWebSocket.value == Closing || realWebSocket.value == Closed {
        return;
      }
      var parcel := Parcel(|traffic.accepted|, data);
      if realWebSocket.value == Connecting {
        waitingSends := waitingSends + [parcel];
      } else {
        traffic := traffic.(handed := traffic.handed + [parcel]);
      }
      traffic := traffic.(accepted := traffic.accepted + [parcel]);
    }

    method CloseServer()
      modifies this`realWebSocket, this`realCloseAborted, this`microtasks
      ensures Model() == DoServerClose(old(Model()))
    {
      if realWebSocket.None? {
        return;
      }
      realCloseAborted := true;
      if realWebSocket.value == Closing || realWebSocket.value == Closed {
        return;
      }
      realWebSocket := Some(Closing);
      QueueMicrotask(FireServerClose);
    }

    method Perform(a: Action)
      modifies this
      ensures Model() == Act(old(Model()), a)
    {
      match a
      case AppSend(data) => Send(data);
      case AppClose(code) => Close(code);
      case ClientSend(data) => TransportSend(data);
      case ClientClose(code) => CloseSocket(code);
      case ServerConnect => Connect();
      case ServerSend(data) => SendToServer(data);
      case ServerClose => CloseServer();
    }

    method PerformAll(acts: seq<Action>)
      modifies this
      ensures Model() == ActAll(old(Model()), acts)
    {
      for i := 0 to |acts|
        invariant Model() == ActAll(old(Model()), acts[..i])
      {
        Perform(acts[i]);
        assert Init(acts[..i + 1]) == acts[..i];
      }
      assert acts[..|acts|] == acts;
    }

    /** "open", and by its listeners the messages that waited for it. */
    method DispatchOpenEvent()
      modifies this`deferredMessages, this`seen
      ensures Model() == old(Model()).(client := DispatchOpen(old(Model()).client))
    {
      ghost var before := seen.events;
      seen := seen.(events := seen.events + [GotOpen]);
      for i := 0 to |deferredMessages|
        modifies this`seen
        invariant seen == old(seen).(events := before + [GotOpen] + Delivered(deferredMessages[..i]))
      {
        assert Delivered(deferredMessages[..i + 1]) == Delivered(deferredMessages[..i]) + [GotMessage(deferredMessages[i])];
        seen := seen.(events := seen.events + [GotMessage(deferredMessages[i])]);
      }
      assert deferredMessages[..|deferredMessages|] == deferredMessages;
      deferredMessages := [];
    }

    method DeliverMockedMessage(data: Data)
      modifies this`deferredMessages, this`seen
      ensures Model() == old(Model()).(client := Deliver(old(Model()).client, data))
    {
      if readyState == Closing || readyState == Closed {
        return;
      }
      if readyState == Connecting {
        deferredMessages := deferredMessages + [data];
      } else {
        seen := seen.(events := seen.events + [GotMessage(data)]);
      }
    }

    method NotifyOutgoingData(data: Data, prevented: bool)
      modifies this`bufferedAmount, this`seen, this`microtasks
      ensures Model() == DoNotifyOutgoing(old(Model()), data, prevented)
    {
      bufferedAmount := 0;
      seen := seen.(outgoing := seen.outgoing + [data]);
      if realWebSocket.Some? {
        QueueMicrotask(ForwardOutgoing(data, prevented));
      }
    }

    /** The client closed: so does the original connection, unless it closed first. */
    method HandleMockClose()
      modifies this`realWebSocket, this`traffic
      ensures Model() == old(Model()).(server := RelayMockClose(old(Model()).server))
    {
      if mockCloseAborted {
        return;
      }
      traffic := traffic.(relays := traffic.relays + 1);
      if realWebSocket.Some? && realWebSocket.value != Closing && realWebSocket.value != Closed {
        realWebSocket := Some(Closing);
      }
    }

    method FireCloseEvent(code: nat, pre: seq<Action>, post: seq<Action>)
      modifies this
      ensures Model() == DoFireClose(old(Model()), code, pre, post)
    {
      var listensToClose := realWebSocket.Some?;
      readyState := Closed;
      seen := seen.(events := seen.events + [GotClose(code)]);
      PerformAll(pre);
      if listensToClose {
        HandleMockClose();
      }
      PerformAll(post);
    }

    method RunMicrotask(pre: seq<Action>, post: seq<Action>, prevented: bool)
      modifies this
      ensures Model() == DoRunTask(old(Model()), pre, post, prevented)
    {
      if microtasks == [] {
        return;
      }
      var task := microtasks[0];
      microtasks := microtasks[1..];
      match task {
        case FinishOpen =>
          if readyState == Connecting {
            readyState := Open;
            DispatchOpenEvent();
            PerformAll(pre + post);
          }
        case DeliverMessage(data) =>
          var dispatches := readyState == Open;
          DeliverMockedMessage(data);
          if dispatches { PerformAll(pre + post); }
        case NotifyOutgoing(data) =>
          NotifyOutgoingData(data, prevented);
          PerformAll(pre + post);
        case ForwardOutgoing(data, stopped) => if !stopped { SendToServer(data); }
        case FireClose(code) => FireCloseEvent(code, pre, post);
        case FireServerClose =>
          traffic := traffic.(closes := traffic.closes + 1);
          PerformAll(pre + post);
      }
    }

    /** The original connection opens: its listeners run, then what waited for it is sent. */
    method OnRealOpen(acts: seq<Action>)
      modifies this
      ensures Model() == DoRealOpens(old(Model()), acts)
    {
      if realWebSocket != Some(Connecting) {
        return;
      }
      realWebSocket := Some(Open);
      if forwardsOpen {
        DispatchOpenEvent();
      }
      PerformAll(acts);
      traffic := traffic.(handed := traffic.handed + waitingSends);
      waitingSends := [];
    }

    method OnRealMessage(data: Data, acts: seq<Action>, prevented: bool)
      modifies this
      ensures Model() == DoRealMessage(old(Model()), data, acts, prevented)
    {
      if realWebSocket != Some(Open) {
        return;
      }
      PerformAll(acts);
      if !prevented {
        seen := seen.(events := seen.events + [GotForwarded(data)]);
      }
    }

    method OnRealClose(code: nat, acts: seq<Action>, prevented: bool)
      modifies this
      ensures Model() == DoRealCloses(old(Model()), code, acts, prevented)
    {
      if realWebSocket.None? || realWebSocket.value == Closed {
        return;
      }
      realWebSocket := Some(Closed);
      if realCloseAborted {
        return;
      }
      mockCloseAborted := true;
      traffic := traffic.(closes := traffic.closes + 1);
      assert Model() == WithRealClose(old(Model()));
      PerformAll(acts);
      if !prevented {
        RelayRealCloseToClient(code);
      }
    }

    method RelayRealCloseToClient(code: nat)
      modifies this`readyState, this`microtasks, this`traffic
      ensures Model() == RelayRealClose(old(Model()), code)
    {
      if readyState != Closing && readyState != Closed {
        traffic := traffic.(relays := traffic.relays + 1);
        CloseSocket(code);
      }
    }

    method OnConnectionHandled(mocked: bool)
      modifies this
      ensures Model() == DoConnectionHandled(old(Model()), mocked)
    {
      if decided {
        return;
      }
      decided := true;
      if mocked {
        QueueMicrotask(FinishOpen);
      } else {
        forwardsOpen := true;
        Connect();
      }
    }

    method HandleEvent(e: Event)
      modifies this
      ensures Model() == Step(old(Model()), e)
    {
      match e {
        case Do(act) => Perform(act);
        case ConnectionHandled(mocked) => OnConnectionHandled(mocked);
        case ConnectionThrew =>
          if !decided {
            decided := true;
            CloseSocket(1011);
          }
        case RunTask(pre, post, prevented) => RunMicrotask(pre, post, prevented);
        case RealOpens(acts) => OnRealOpen(acts);
        case RealMessage(data, acts, prevented) => OnRealMessage(data, acts, prevented);
        case RealCloses(code, acts, prevented) => OnRealClose(code, acts, prevented);
      }
    }

    /** The microtasks run until there are none left. */
    method RunMicrotasks()
      modifies this
      ensures Model() == Drain(old(Model()))
    {
      while microtasks != []
        invariant Drain(Model()) == Drain(old(Model()))
        decreases Weight(microtasks)
      {
        IdleTaskShrinks(Model());
        RunMicrotask([], [], false);
      }
    }
  }

  datatype ClientLog = ClientLog(events: seq<ClientEvent>, mocked: seq<Data>, sent: seq<Data>, outgoing: seq<Data>)

  datatype ServerLog = ServerLog(
    inTime: bool,
    accepted: seq<Parcel>,
    handed: seq<Parcel>,
    closes: nat,
    relays: nat)

  /** Any interleaving, event after event, and then the microtasks until they are done. */
  method Live(events: seq<Event>) returns (w: MockedWebSocket)
    ensures fresh(w) && w.Model() == Drain(Run(events))
    ensures w.microtasks == [] && w.readyState != Closing
    ensures w.readyState == Closed <==> View(w.seen.events).closes == 1
    ensures Decision(events) == Some(ConnectionHandled(true)) && w.readyState != Closed ==>
              w.readyState == Open && View(w.seen.events).opens == 1 && View(w.seen.events).messages == w.seen.mocked
  {
    w := new MockedWebSocket();
    for i := 0 to |events|
      invariant fresh(w) && w.Model() == Run(events[..i])
    {
      assert Init(events[..i + 1]) == events[..i];
      w.HandleEvent(events[i]);
    }
    assert events[..|events|] == events;
    w.RunMicrotasks();
    RunKeeps(events);
    DrainKeeps(Run(events));
    ComesToRest(events);
    if Decision(events) == Some(ConnectionHandled(true)) { MockedClientOpens(events); }
  }
}
