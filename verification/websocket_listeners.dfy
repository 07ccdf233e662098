/**
 What listeners do while an event is dispatched has the effect of doing it right after the
 event, but for the closing of the client and the opening of the connection, where the
 event has more to do after some of its listeners.
 */
module WebSocketListeners {
  import opened Prelude
  import opened WebSocketPair

  /** The microtask dispatches an event to listeners. */
  predicate Dispatching(m: Pair) {
    m.tasks != [] &&
    match m.tasks[0]
    case FinishOpen => m.client.phase == Connecting
    case DeliverMessage(_) => m.client.phase == Open
    case NotifyOutgoing(_) => true
    case ForwardOutgoing(_, _) => false
    case FireClose(_) => true
    case FireServerClose => true
  }

  lemma ActsOfNone(m: Pair)
    ensures var none: seq<Action> := []; ActAll(m, none + none) == m
  {
    var none: seq<Action> := [];
    assert none + none == none;
  }

  /** Of a microtask other than the client's close, they come after it. */
  lemma {:induction false} TaskThenListeners(events: seq<Event>, pre: seq<Action>, post: seq<Action>, prevented: bool)
    requires Run(events).tasks != [] && !Run(events).tasks[0].FireClose?
    ensures var done := Run(events + [RunTask([], [], prevented)]);
            Run(events + [RunTask(pre, post, prevented)]) ==
            if Dispatching(Run(events)) then ActAll(done, pre + post) else done
  {
    RunSnoc(events, RunTask([], [], prevented));
    RunSnoc(events, RunTask(pre, post, prevented));
    var m := Run(events);
    var m0 := m.(tasks := m.tasks[1..]);
    match m.tasks[0]
    case FinishOpen => ActsOfNone(m0.(client := DispatchOpen(m0.client.(phase := Open))));
    case DeliverMessage(data) => ActsOfNone(m0.(client := Deliver(m0.client, data)));
    case NotifyOutgoing(data) => ActsOfNone(DoNotifyOutgoing(m0, data, prevented));
    case ForwardOutgoing(_, _) =>
    case FireServerClose => ActsOfNone(m0.(server := m0.server.(closes := m0.server.closes + 1)));
  }

  /**
   Of the client's close: those that run before it is relayed to the original server act on the
   client as any, and those that run after it come after the event.
   */
  lemma {:induction false} CloseThenListeners(events: seq<Event>, code: nat, pre: seq<Action>, post: seq<Action>, prevented: bool)
    requires Run(events).tasks != [] && Run(events).tasks[0] == FireClose(code)
    ensures Run(events + [RunTask(pre, post, prevented)]) == ActAll(Run(events + [RunTask(pre, [], prevented)]), post)
    ensures var closed := WithClose(Run(events).(tasks := Run(events).tasks[1..]), code);
            var m' := Run(events + [RunTask(pre, [], prevented)]);
            m'.client == ActAll(closed, pre).client && m'.tasks == ActAll(closed, pre).tasks
  {
    RunSnoc(events, RunTask(pre, [], prevented));
    RunSnoc(events, RunTask(pre, post, prevented));
    var m := Run(events);
    var closed := WithClose(m.(tasks := m.tasks[1..]), code);
    var m1 := ActAll(closed, pre);
    ActsOfNone(if m.server.remote.Some? then m1.(server := RelayMockClose(m1.server)) else m1);
    hide ActAll;
  }

  /** Of the original server's messages, they come before the message is forwarded. */
  lemma {:induction false} ListenersThenMessage(events: seq<Event>, data: Data, acts: seq<Action>, prevented: bool)
    requires Run(events).server.remote == Some(Open)
    ensures var acted := ActAll(Run(events), acts);
            var m' := Run(events + [RealMessage(data, acts, prevented)]);
            && m' == acted.(client := m'.client) && m'.client == acted.client.(events := m'.client.events)
            && m'.client.events == Run(events).client.events + (if prevented then [] else [GotForwarded(data)])
  {
    RunSnoc(events, RealMessage(data, acts, prevented));
    ActAllGoesForward(Run(events), acts);
    assert Run(events).client.events + [] == Run(events).client.events;
    hide ActAll;
  }

  /** Of the opening of the connection, they come before what waited is handed over. */
  lemma {:induction false} ListenersThenWaiting(events: seq<Event>, acts: seq<Action>)
    requires Run(events).server.remote == Some(Connecting)
    ensures var m, m' := Run(events), Run(events + [RealOpens(acts)]);
            var ready := m.(server := m.server.(remote := Some(Open)));
            var acted := ActAll(if m.forwardsOpen then ready.(client := DispatchOpen(ready.client)) else ready, acts);
            && m' == acted.(server := m'.server)
            && m'.server.waiting == [] && m'.server.handed == acted.server.handed + acted.server.waiting
            && m'.server.remote == acted.server.remote
  {
    RunSnoc(events, RealOpens(acts));
    hide ActAll;
  }
}
