/**
 What becomes of a mocked WebSocket once everybody leaves it alone: whether it opens, with
 which code it closes, and where the data of each side ends up.
 */
module WebSocketOutcomes {
  import opened Prelude
  import opened WebSocketPair
  import opened WebSocketForwarding

  // ---------------------------------------------------------------------
  // The queue while it is drained
  // ---------------------------------------------------------------------

  function Idle(m: Pair): Pair {
    DoRunTask(m, [], [], false)
  }

  /** What an idle microtask leaves in the queue: the rest, and the forwarding of outgoing data. */
  lemma {:induction false} IdleQueue(m: Pair)
    requires m.tasks != []
    ensures Idle(m).tasks == m.tasks[1..] +
            if m.tasks[0].NotifyOutgoing? && m.server.remote.Some? then [ForwardOutgoing(m.tasks[0].data, false)] else []
  {
    assert m.tasks[1..] + [] == m.tasks[1..];
  }

  lemma {:induction false} IdlePhase(m: Pair)
    requires Core(m) && m.tasks != []
    ensures Core(Idle(m))
    ensures m.tasks[0].FireClose? ==> m.client.phase == Closing
    ensures Idle(m).client.phase == (if m.tasks[0].FireClose? then Closed
                                     else if m.tasks[0] == FinishOpen && m.client.phase == Connecting then Open
                                     else m.client.phase)
  {
    assert Step(m, RunTask([], [], false)) == Idle(m);
    StepKeeps(m, RunTask([], [], false));
    QueuedHead(m.tasks);
    if m.tasks[0].FireClose? { CloseIsDue(m); }
    hide Core, CoreOf, Queued;
  }

  lemma {:induction false} CloseIsDue(m: Pair)
    requires Core(m) && m.tasks != [] && m.tasks[0].FireClose?
    ensures m.client.phase == Closing
  {
    QueuedHead(m.tasks);
  }

  lemma {:induction false} DrainStep(m: Pair)
    requires m.tasks != []
    ensures Weight(Idle(m).tasks) < Weight(m.tasks) && Drain(m) == Drain(Idle(m))
  {
    IdleTaskShrinks(m);
  }

  /** Where a client comes to rest. */
  function Rest(phase: Phase, tasks: seq<Task>): Phase {
    if Ended(phase) then Closed else if phase == Connecting && FinishOpen !in tasks then Connecting else Open
  }

  lemma {:induction false} IdleRest(m: Pair)
    requires Core(m) && m.tasks != []
    ensures Core(Idle(m)) && Rest(Idle(m).client.phase, Idle(m).tasks) == Rest(m.client.phase, m.tasks)
  {
    IdlePhase(m);
    IdleQueue(m);
    hide DoRunTask, Core;
    assert m.tasks == [m.tasks[0]] + m.tasks[1..];
    assert FinishOpen in Idle(m).tasks <==> FinishOpen in m.tasks[1..];
  }

  lemma {:induction false} EmptyQueue(m: Pair)
    requires Core(m) && m.tasks == []
    ensures m.client.phase != Closing
  {
    assert Queued(m.tasks) == Tally([], [], 0, 0);
  }

  /** Left alone, a client that anybody closed closes, and another opens if that is in the queue. */
  lemma {:induction false} DrainPhase(m: Pair)
    requires Core(m)
    ensures Core(Drain(m)) && Drain(m).tasks == [] && Drain(m).client.phase == Rest(m.client.phase, m.tasks)
    decreases Weight(m.tasks)
  {
    if m.tasks == [] {
      EmptyQueue(m);
    } else {
      DrainStep(m);
      IdleRest(m);
      hide Core, Drain, Rest, Idle;
      DrainPhase(Idle(m));
    }
  }

  // ---------------------------------------------------------------------
  // The connection listeners' decision
  // ---------------------------------------------------------------------

  /** The first outcome of the connection listeners; later ones do not count. */
  function Decision(events: seq<Event>): Option<Event> {
    if events == [] then None
    else if Decision(Init(events)).Some? then Decision(Init(events))
    else if Last(events).ConnectionHandled? || Last(events).ConnectionThrew? then Some(Last(events))
    else None
  }

  lemma {:induction false} ActAllQueues(m: Pair, acts: seq<Action>)
    ensures m.tasks <= ActAll(m, acts).tasks
  {
    if acts != [] {
      ActAllQueues(m, Init(acts));
      ActQueues(ActAll(m, Init(acts)), Last(acts));
    }
  }

  lemma {:induction false} ActQueues(m: Pair, a: Action)
    ensures m.tasks <= Act(m, a).tasks && |Act(m, a).tasks| <= |m.tasks| + 1
    ensures FinishOpen in Act(m, a).tasks <==> FinishOpen in m.tasks
  {
  }

  predicate Promised(m: Pair) {
    m.client.phase == Connecting ==> FinishOpen in m.tasks
  }

  lemma {:induction false} ActAllPromised(m: Pair, acts: seq<Action>)
    requires Promised(m)
    ensures Promised(ActAll(m, acts))
  {
    ActAllQueues(m, acts);
    ActAllGoesForward(m, acts);
  }

  lemma {:induction false} TaskPromised(m: Pair, t: Task, pre: seq<Action>, post: seq<Action>, prevented: bool)
    requires Promised(m) || (t == FinishOpen && m.client.phase == Connecting)
    ensures Promised(DoTask(m, t, pre, post, prevented))
  {
    hide ActAll;
    match t
    case FinishOpen =>
      if m.client.phase == Connecting { ActAllPromised(m.(client := DispatchOpen(m.client.(phase := Open))), pre + post); }
    case DeliverMessage(data) => ActAllPromised(m.(client := Deliver(m.client, data)), pre + post);
    case NotifyOutgoing(data) => ActAllPromised(DoNotifyOutgoing(m, data, prevented), pre + post);
    case ForwardOutgoing(_, _) =>
    case FireClose(code) =>
      ActAllPromised(WithClose(m, code), pre);
      var m1 := ActAll(WithClose(m, code), pre);
      ActAllPromised(if m.server.remote.Some? then m1.(server := RelayMockClose(m1.server)) else m1, post);
    case FireServerClose => ActAllPromised(m.(server := m.server.(closes := m.server.closes + 1)), pre + post);
  }

  lemma {:induction false} StepPromised(m: Pair, e: Event)
    requires Promised(m)
    ensures Promised(Step(m, e))
  {
    hide ActAll, DoTask;
    match e
    case Do(act) => ActAllPromised(m, [act]); ActOne(m, act);
    case ConnectionHandled(_) =>
    case ConnectionThrew =>
    case RunTask(pre, post, prevented) =>
      if m.tasks != [] {
        assert m.tasks == [m.tasks[0]] + m.tasks[1..];
        TaskPromised(m.(tasks := m.tasks[1..]), m.tasks[0], pre, post, prevented);
      }
    case RealOpens(acts) =>
      var m1 := m.(server := m.server.(remote := Some(Open)));
      ActAllPromised(if m.forwardsOpen then m1.(client := DispatchOpen(m1.client)) else m1, acts);
    case RealMessage(_, acts, _) => ActAllPromised(m, acts);
    case RealCloses(code, acts, _) =>
      ActAllPromised(WithRealClose(m), acts);
  }

  lemma ActOne(m: Pair, a: Action)
    ensures ActAll(m, [a]) == Act(m, a)
  {
    assert Init([a]) == [] && ActAll(m, []) == m;
  }

  lemma {:induction false} StepKeepsDecision(m: Pair, e: Event)
    requires !e.ConnectionHandled? && !e.ConnectionThrew?
    ensures Step(m, e).decided == m.decided && Step(m, e).forwardsOpen == m.forwardsOpen
    ensures m.server.remote.Some? ==> Step(m, e).server.remote.Some?
  {
    hide ActAll;
    match e
    case Do(act) => ActGoesForward(m, act);
    case RunTask(pre, post, prevented) =>
      if m.tasks != [] { TaskKeepsDecision(m.(tasks := m.tasks[1..]), m.tasks[0], pre, post, prevented); }
    case RealOpens(acts) =>
      var m1 := m.(server := m.server.(remote := Some(Open)));
      ActAllGoesForward(if m.forwardsOpen then m1.(client := DispatchOpen(m1.client)) else m1, acts);
    case RealMessage(_, acts, _) => ActAllGoesForward(m, acts);
    case RealCloses(_, acts, _) => ActAllGoesForward(WithRealClose(m), acts);
  }

  lemma {:induction false} TaskKeepsDecision(m: Pair, t: Task, pre: seq<Action>, post: seq<Action>, prevented: bool)
    ensures var m' := DoTask(m, t, pre, post, prevented);
            && m'.decided == m.decided && m'.forwardsOpen == m.forwardsOpen
            && (m.server.remote.Some? ==> m'.server.remote.Some?)
  {
    hide ActAll;
    match t
    case FinishOpen => ActAllGoesForward(m.(client := DispatchOpen(m.client.(phase := Open))), pre + post);
    case DeliverMessage(data) => ActAllGoesForward(m.(client := Deliver(m.client, data)), pre + post);
    case NotifyOutgoing(data) => ActAllGoesForward(DoNotifyOutgoing(m, data, prevented), pre + post);
    case ForwardOutgoing(_, _) =>
    case FireClose(code) =>
      ActAllGoesForward(WithClose(m, code), pre);
      var m1 := ActAll(WithClose(m, code), pre);
      ActAllGoesForward(if m.server.remote.Some? then m1.(server := RelayMockClose(m1.server)) else m1, post);
    case FireServerClose => ActAllGoesForward(m.(server := m.server.(closes := m.server.closes + 1)), pre + post);
  }

  /** Over every run: what each decision has brought about. */
  predicate Carried(m: Pair, d: Option<Event>) {
    && (m.decided <==> d.Some?)
    && (m.forwardsOpen <==> d == Some(ConnectionHandled(false)))
    && (d == Some(ConnectionHandled(true)) ==> Promised(m))
    && (d == Some(ConnectionHandled(false)) ==> m.server.remote.Some?)
    && (d == Some(ConnectionThrew) ==> Ended(m.client.phase))
  }

  lemma {:induction false} DecisionIsCarried(events: seq<Event>)
    ensures Carried(Run(events), Decision(events))
  {
    if events != [] {
      var m, e := Run(Init(events)), Last(events);
      DecisionIsCarried(Init(events));
      if e.ConnectionHandled? || e.ConnectionThrew? {
        hide ActAll;
      } else {
        StepKeepsDecision(m, e);
        StepNeverReopens(m, e);
        hide Step;
        if Promised(m) { StepPromised(m, e); }
      }
    }
  }

  // ---------------------------------------------------------------------
  // Opening
  // ---------------------------------------------------------------------

  lemma {:induction false} RunOpenedOnce(events: seq<Event>)
    requires Decision(events) != Some(ConnectionHandled(false))
    ensures Opened(Run(events))
  {
    if events != [] {
      var m, e := Run(Init(events)), Last(events);
      RunOpenedOnce(Init(events));
      RunKeeps(Init(events));
      DecisionIsCarried(Init(events));
      if e == ConnectionHandled(false) {
        assert m.decided && Step(m, e) == m;
      } else {
        hide Step, Core, Opened;
        StepOpened(m, e);
      }
    }
  }

  lemma {:induction false} DrainOpened(m: Pair)
    requires Core(m) && Opened(m)
    ensures Opened(Drain(m))
    decreases Weight(m.tasks)
  {
    if m.tasks != [] {
      var e := RunTask([], [], false);
      assert Step(m, e) == Idle(m);
      IdleTaskShrinks(m);
      StepKeeps(m, e);
      StepOpened(m, e);
      DrainOpened(Idle(m));
    }
  }

  /**
   A client whose connection listeners decided to mock it opens, once, unless somebody closed
   it, and gets every message sent to it.
   */
  lemma {:induction false} MockedClientOpens(events: seq<Event>)
    requires Decision(events) == Some(ConnectionHandled(true))
    ensures var m, m' := Run(events), Drain(Run(events));
            && (m'.client.phase == Open <==> !Ended(m.client.phase))
            && (!Ended(m.client.phase) ==>
                  View(m'.client.events).opens == 1 && View(m'.client.events).messages == m.client.mocked)
  {
    RunKeeps(events);
    DecisionIsCarried(events);
    DrainPhase(Run(events));
    RunOpenedOnce(events);
    DrainOpened(Run(events));
    ComesToRest(events);
  }

  /** Without a decision for mocking, a client nobody closed rests where it was: connecting stays connecting. */
  lemma {:induction false} UndecidedStaysConnecting(events: seq<Event>)
    requires Decision(events) != Some(ConnectionHandled(true))
    ensures Run(events).client.phase == Connecting ==> Drain(Run(events)).client.phase == Connecting
  {
    RunKeeps(events);
    DrainPhase(Run(events));
    NothingPromised(events);
  }

  lemma {:induction false} NothingPromised(events: seq<Event>)
    requires Decision(events) != Some(ConnectionHandled(true))
    ensures FinishOpen !in Run(events).tasks
  {
    if events != [] {
      var m, e := Run(Init(events)), Last(events);
      NothingPromised(Init(events));
      DecisionIsCarried(Init(events));
      StepPromisesNone(m, e);
    }
  }

  lemma {:induction false} ActAllPromisesNone(m: Pair, acts: seq<Action>)
    requires FinishOpen !in m.tasks
    ensures FinishOpen !in ActAll(m, acts).tasks
  {
    if acts != [] {
      ActAllPromisesNone(m, Init(acts));
      ActQueues(ActAll(m, Init(acts)), Last(acts));
    }
  }

  lemma {:induction false} TaskPromisesNone(m: Pair, t: Task, pre: seq<Action>, post: seq<Action>, prevented: bool)
    requires FinishOpen !in m.tasks
    ensures FinishOpen !in DoTask(m, t, pre, post, prevented).tasks
  {
    hide ActAll;
    match t
    case FinishOpen => ActAllPromisesNone(m.(client := DispatchOpen(m.client.(phase := Open))), pre + post);
    case DeliverMessage(data) => ActAllPromisesNone(m.(client := Deliver(m.client, data)), pre + post);
    case NotifyOutgoing(data) => ActAllPromisesNone(DoNotifyOutgoing(m, data, prevented), pre + post);
    case ForwardOutgoing(_, _) =>
    case FireClose(code) =>
      ActAllPromisesNone(WithClose(m, code), pre);
      var m1 := ActAll(WithClose(m, code), pre);
      ActAllPromisesNone(if m.server.remote.Some? then m1.(server := RelayMockClose(m1.server)) else m1, post);
    case FireServerClose => ActAllPromisesNone(m.(server := m.server.(closes := m.server.closes + 1)), pre + post);
  }

  lemma {:induction false} StepPromisesNone(m: Pair, e: Event)
    requires FinishOpen !in m.tasks && (e == ConnectionHandled(true) ==> m.decided)
    ensures FinishOpen !in Step(m, e).tasks
  {
    hide ActAll, DoTask;
    match e
    case Do(act) => ActAllPromisesNone(m, [act]); ActOne(m, act);
    case ConnectionHandled(_) =>
    case ConnectionThrew =>
    case RunTask(pre, post, prevented) =>
      if m.tasks != [] { TaskPromisesNone(m.(tasks := m.tasks[1..]), m.tasks[0], pre, post, prevented); }
    case RealOpens(acts) =>
      var m1 := m.(server := m.server.(remote := Some(Open)));
      ActAllPromisesNone(if m.forwardsOpen then m1.(client := DispatchOpen(m1.client)) else m1, acts);
    case RealMessage(_, acts, _) => ActAllPromisesNone(m, acts);
    case RealCloses(_, acts, _) => ActAllPromisesNone(WithRealClose(m), acts);
  }

  /** A client nobody mocks gets a connection to the original server, and "open" when that opens. */
  lemma {:induction false} UnmockedClientConnects(events: seq<Event>, acts: seq<Action>)
    requires Decision(events) == Some(ConnectionHandled(false))
    ensures Run(events).server.remote.Some?
    ensures Run(events).server.remote == Some(Connecting) ==> GotOpen in Run(events + [RealOpens(acts)]).client.events
  {
    DecisionIsCarried(events);
    RunSnoc(events, RealOpens(acts));
    StepAdds(Run(events), RealOpens(acts));
    DispatchesOneKind(Run(events), RealOpens(acts));
  }

  // ---------------------------------------------------------------------
  // Closing
  // ---------------------------------------------------------------------

  lemma {:induction false} DrainAppends(m: Pair)
    ensures m.client.events <= Drain(m).client.events
    decreases Weight(m.tasks)
  {
    if m.tasks != [] {
      StepAdds(m, RunTask([], [], false));
      assert Step(m, RunTask([], [], false)) == Idle(m);
      IdleTaskShrinks(m);
      DrainAppends(Idle(m));
    }
  }

  lemma {:induction false} NoCloseQueued(tasks: seq<Task>, t: Task)
    requires Queued(tasks).closes == 0 && t in tasks
    ensures !t.FireClose?
  {
    InitLast(tasks);
    if t in Init(tasks) { NoCloseQueued(Init(tasks), t); }
  }

  /** The close event that is queued is the one dispatched. */
  lemma {:induction false} DrainTells(m: Pair, code: nat)
    requires Core(m) && m.client.phase == Closing && FireClose(code) in m.tasks
    ensures GotClose(code) in Drain(m).client.events
    decreases Weight(m.tasks)
  {
    var t, rest := m.tasks[0], m.tasks[1..];
    assert m.tasks == [t] + rest;
    IdleTaskShrinks(m);
    IdlePhase(m);
    IdleQueue(m);
    if t.FireClose? {
      QueuedHead(m.tasks);
      if FireClose(code) in rest { NoCloseQueued(rest, FireClose(code)); }
      StepAdds(m, RunTask([], [], false));
      DrainAppends(Idle(m));
    } else {
      hide DoRunTask, Core;
      DrainTells(Idle(m), code);
    }
  }

  /** An action that closes an open or connecting client, and with which code. */
  predicate ClosesWith(m: Pair, a: Action, code: nat) {
    || a == ClientClose(code)
    || (a == AppClose(code) && (code == 1000 || 3000 <= code <= 4999))
    || (a.AppSend? && m.client.phase == Connecting && code == 1000)
  }

  lemma {:induction false} CloseReaches(m: Pair, code: nat)
    requires Core(m) && !Ended(m.client.phase) && Core(CloseClient(m, code))
    ensures var m' := Drain(CloseClient(m, code)); m'.client.phase == Closed && GotClose(code) in m'.client.events
  {
    var m1 := CloseClient(m, code);
    assert m1.tasks[|m.tasks|] == FireClose(code);
    hide Core;
    DrainPhase(m1);
    DrainTells(m1, code);
  }

  /** Whoever closes a client first, it closes, and is told that code and no other. */
  lemma {:induction false} ClosedWithCode(events: seq<Event>, a: Action, code: nat)
    requires !Ended(Run(events).client.phase) && ClosesWith(Run(events), a, code)
    ensures var m' := Drain(Run(events + [Do(a)]));
            m'.client.phase == Closed && GotClose(code) in m'.client.events && View(m'.client.events).closes == 1
  {
    RunSnoc(events, Do(a));
    RunKeeps(events);
    RunKeeps(events + [Do(a)]);
    ComesToRest(events + [Do(a)]);
    assert Run(events + [Do(a)]) == CloseClient(Run(events), code);
    hide Run, Core;
    CloseReaches(Run(events), code);
  }

  /** Nothing else the application or the interceptor does closes it. */
  lemma {:induction false} NothingElseCloses(events: seq<Event>, a: Action)
    requires !Ended(Run(events).client.phase)
    ensures Ended(Run(events + [Do(a)]).client.phase) <==> exists code :: ClosesWith(Run(events), a, code)
  {
    RunSnoc(events, Do(a));
    match a
    case AppClose(code) => assert ClosesWith(Run(events), a, code) <==> ConfigurableCode(code);
    case ClientClose(code) => assert ClosesWith(Run(events), a, code);
    case AppSend(_) => assert ClosesWith(Run(events), a, 1000) <==> Run(events).client.phase == Connecting;
    case _ =>
  }

  /** Connection listeners that throw close the client with an internal error. */
  lemma {:induction false} ThrownListenersClose(events: seq<Event>)
    requires Decision(events).None? && !Ended(Run(events).client.phase)
    ensures var m' := Drain(Run(events + [ConnectionThrew]));
            m'.client.phase == Closed && GotClose(1011) in m'.client.events
  {
    RunSnoc(events, ConnectionThrew);
    RunKeeps(events);
    RunKeeps(events + [ConnectionThrew]);
    DecisionIsCarried(events);
    var m := Run(events).(decided := true);
    assert Core(m) && Run(events + [ConnectionThrew]) == CloseClient(m, 1011);
    hide Run, Core;
    CloseReaches(m, 1011);
  }

  /** The original server's close counts once; unless prevented it closes the client, with its code if nobody closed it first. */
  lemma {:induction false} OriginalCloseReaches(events: seq<Event>, code: nat, acts: seq<Action>, prevented: bool)
    requires var s := Run(events).server; s.remote.Some? && s.remote.value != Closed && !s.ignoresRealClose
    ensures var m, m' := Run(events), Run(events + [RealCloses(code, acts, prevented)]);
            var m1 := ActAll(WithRealClose(m), acts);
            && m'.server.remote == Some(Closed) && m'.server.closes == m.server.closes + 1
            && (prevented ==> m'.client == m1.client)
            && (!prevented && Ended(m1.client.phase) ==> m'.client == m1.client)
            && (!prevented && !Ended(m1.client.phase) ==>
                  Drain(m').client.phase == Closed && GotClose(code) in Drain(m').client.events)
  {
    var m, e := Run(events), RealCloses(code, acts, prevented);
    RunSnoc(events, e);
    RunKeeps(events);
    RunKeeps(events + [e]);
    var m1 := ActAll(WithRealClose(m), acts);
    ActAllGoesForward(WithRealClose(m), acts);
    if !prevented && !Ended(m1.client.phase) {
      var m2 := m1.(server := m1.server.(relays := m1.server.relays + 1));
      assert Run(events + [e]) == CloseClient(m2, code);
      assert Run(events + [e]).tasks[|m2.tasks|] == FireClose(code);
      hide Run, ActAll, Core;
      DrainPhase(CloseClient(m2, code));
      DrainTells(CloseClient(m2, code), code);
    }
  }

  /** Once the interceptor closed the connection, the original server's close does nothing but end it. */
  lemma {:induction false} ServerCloseSilences(events: seq<Event>, code: nat, acts: seq<Action>, prevented: bool)
    requires Run(events).server.remote.Some?
    ensures var m, m' := Run(events + [Do(ServerClose)]), Run(events + [Do(ServerClose)] + [RealCloses(code, acts, prevented)]);
            && Ended(m.server.remote.value)
            && m' == m.(server := m.server.(remote := Some(Closed)))
  {
    RunSnoc(events, Do(ServerClose));
    RunSnoc(events + [Do(ServerClose)], RealCloses(code, acts, prevented));
    hide Run, ActAll;
    var m := Run(events + [Do(ServerClose)]);
    assert Ended(m.server.remote.value) && m.server.ignoresRealClose;
  }

  lemma {:induction false} IdleCountsClose(m: Pair)
    requires m.tasks != []
    ensures Idle(m).server.closes == m.server.closes + (if m.tasks[0].FireServerClose? then 1 else 0)
  {
  }

  lemma {:induction false} IdleServerCloses(m: Pair)
    requires m.tasks != []
    ensures Idle(m).server.closes + Queued(Idle(m).tasks).serverCloses == m.server.closes + Queued(m.tasks).serverCloses
  {
    var rest := m.tasks[1..];
    hide Idle, Queued;
    IdleQueue(m);
    IdleCountsClose(m);
    QueuedHead(m.tasks);
    if m.tasks[0].NotifyOutgoing? { QueuedSnoc(rest, ForwardOutgoing(m.tasks[0].data, false)); }
    assert rest + [] == rest;
  }

  lemma {:induction false} DrainServerCloses(m: Pair)
    ensures Drain(m).server.closes == m.server.closes + Queued(m.tasks).serverCloses
    decreases Weight(m.tasks)
  {
    if m.tasks == [] {
      assert Queued(m.tasks).serverCloses == 0;
    } else {
      DrainStep(m);
      IdleServerCloses(m);
      hide Drain, Idle, Queued;
      DrainServerCloses(Idle(m));
    }
  }

  /** The interceptor's close of a live connection is told to its listeners, once. */
  lemma {:induction false} ServerCloseIsTold(events: seq<Event>)
    requires var s := Run(events).server; s.remote.Some? && !Ended(s.remote.value)
    ensures Drain(Run(events + [Do(ServerClose)])).server.closes == 1
  {
    var m, m' := Run(events), Run(events + [Do(ServerClose)]);
    RunSnoc(events, Do(ServerClose));
    RunKeeps(events);
    hide Run, Drain, Queued;
    assert m'.server.closes == m.server.closes && m'.tasks == m.tasks + [FireServerClose];
    assert m.server.closes + Queued(m.tasks).serverCloses == 0;
    QueuedSnoc(m.tasks, FireServerClose);
    DrainServerCloses(m');
  }

  // ---------------------------------------------------------------------
  // Data
  // ---------------------------------------------------------------------

  /** What an open client sends is announced to the interceptor, after all it sent before. */
  lemma {:induction false} SendIsAnnounced(events: seq<Event>, data: Data)
    requires Run(events).client.phase == Open
    ensures Drain(Run(events + [Do(AppSend(data))])).client.outgoing == Drain(Run(events)).client.outgoing + [data]
  {
    RunSnoc(events, Do(AppSend(data)));
    ComesToRest(events);
    ComesToRest(events + [Do(AppSend(data))]);
  }

  /** What the interceptor sends to a client that will be open reaches it, after all it sent before. */
  lemma {:induction false} MessageIsDelivered(events: seq<Event>, data: Data)
    requires Drain(Run(events)).client.phase == Open
    ensures var m' := Drain(Run(events + [Do(ClientSend(data))]));
            && m'.client.phase == Open
            && View(m'.client.events).messages == View(Drain(Run(events)).client.events).messages + [data]
  {
    var m, m1 := Run(events), Run(events + [Do(ClientSend(data))]);
    RunSnoc(events, Do(ClientSend(data)));
    RunKeeps(events);
    RunKeeps(events + [Do(ClientSend(data))]);
    DrainPhase(m);
    DrainPhase(m1);
    ComesToRest(events);
    ComesToRest(events + [Do(ClientSend(data))]);
    hide Run, Core, Drain, View;
    assert m1.tasks == m.tasks + [DeliverMessage(data)] && m1.client.phase == m.client.phase;
  }

  function HandedData(s: Server): seq<Data> {
    seq(|s.handed|, i requires 0 <= i < |s.handed| => s.handed[i].data)
  }

  function Forwards(tasks: seq<Task>): seq<Data> {
    if tasks == [] then [] else
      (if tasks[0].ForwardOutgoing? && !tasks[0].prevented then [tasks[0].data] else []) + Forwards(tasks[1..])
  }

  function Notifies(tasks: seq<Task>): seq<Data> {
    if tasks == [] then [] else (if tasks[0].NotifyOutgoing? then [tasks[0].data] else []) + Notifies(tasks[1..])
  }

  /** What a queue hands to an open original connection, unprevented: what is on its way, then what is yet to be announced. */
  function ToHand(tasks: seq<Task>): seq<Data> {
    Forwards(tasks) + Notifies(tasks)
  }

  lemma {:induction false} ToHandSnoc(tasks: seq<Task>, t: Task)
    ensures Forwards(tasks + [t]) == Forwards(tasks) + (if t.ForwardOutgoing? && !t.prevented then [t.data] else [])
    ensures Notifies(tasks + [t]) == Notifies(tasks) + (if t.NotifyOutgoing? then [t.data] else [])
  {
    if tasks == [] {
      assert [t][1..] == [];
    } else {
      assert (tasks + [t])[1..] == tasks[1..] + [t];
      ToHandSnoc(tasks[1..], t);
    }
  }

  /** The server side of an idle microtask that does not close the client. */
  lemma {:induction false} IdleServer(m: Pair)
    requires m.tasks != [] && m.server.remote == Some(Open) && !m.tasks[0].FireClose?
    ensures Idle(m).server.remote == Some(Open)
    ensures HandedData(Idle(m).server) == HandedData(m.server) +
            if m.tasks[0].ForwardOutgoing? && !m.tasks[0].prevented then [m.tasks[0].data] else []
  {
    assert HandedData(m.server) + [] == HandedData(m.server);
  }

  lemma {:induction false} IdleHands(m: Pair)
    requires m.tasks != [] && m.server.remote == Some(Open) && !m.tasks[0].FireClose?
    ensures Idle(m).server.remote == Some(Open)
    ensures HandedData(Idle(m).server) + ToHand(Idle(m).tasks) == HandedData(m.server) + ToHand(m.tasks)
  {
    var t, rest := m.tasks[0], m.tasks[1..];
    IdleQueue(m);
    IdleServer(m);
    assert rest + [] == rest;
    if t.NotifyOutgoing? { ToHandSnoc(rest, ForwardOutgoing(t.data, false)); }
    var h, f, n, d := HandedData(m.server), Forwards(rest), Notifies(rest), if t.NotifyOutgoing? || t.ForwardOutgoing? then [t.data] else [];
    assert Forwards(m.tasks) == (if t.ForwardOutgoing? && !t.prevented then d else []) + f;
    assert Notifies(m.tasks) == (if t.NotifyOutgoing? then d else []) + n;
    hide Idle, DoRunTask, HandedData, Forwards, Notifies;
    Shuffled(h, f, n, d);
  }

  lemma Shuffled(h: seq<Data>, f: seq<Data>, n: seq<Data>, d: seq<Data>)
    ensures h + ((f + d) + n) == h + (f + (d + n)) && (h + d) + (f + n) == h + ((d + f) + n)
    ensures [] + f == f && [] + n == n && h + [] == h && f + [] == f
  {
  }

  lemma {:induction false} DrainHands(m: Pair)
    requires Core(m) && m.client.phase != Closing && m.server.remote == Some(Open)
    ensures HandedData(Drain(m).server) == HandedData(m.server) + ToHand(m.tasks)
    decreases Weight(m.tasks)
  {
    if m.tasks == [] {
      assert HandedData(m.server) + [] == HandedData(m.server);
    } else {
      DrainStep(m);
      IdlePhase(m);
      IdleHands(m);
      hide DoRunTask, Core, Drain, HandedData, ToHand;
      DrainHands(Idle(m));
    }
  }

  /** With an open connection to the original server, it is also handed to that, after all that was on its way, unless prevented. */
  lemma {:induction false} SendIsForwarded(events: seq<Event>, data: Data)
    requires Run(events).client.phase == Open && Run(events).server.remote == Some(Open)
    ensures HandedData(Drain(Run(events + [Do(AppSend(data))])).server) == HandedData(Drain(Run(events)).server) + [data]
  {
    var m, m1 := Run(events), Run(events + [Do(AppSend(data))]);
    RunSnoc(events, Do(AppSend(data)));
    RunKeeps(events);
    RunKeeps(events + [Do(AppSend(data))]);
    hide Run, Core, Drain, HandedData, Forwards, Notifies;
    assert m1.tasks == m.tasks + [NotifyOutgoing(data)] && m1.server == m.server && m1.client.phase == Open;
    DrainHands(m);
    DrainHands(m1);
    ToHandSnoc(m.tasks, NotifyOutgoing(data));
    var h, f, n := HandedData(m.server), Forwards(m.tasks), Notifies(m.tasks);
    assert f + [] == f && h + (f + (n + [data])) == (h + (f + n)) + [data];
  }

  /** Prevented data is not. */
  lemma {:induction false} PreventedIsKept(events: seq<Event>, data: Data)
    requires Run(events).tasks != [] && Run(events).tasks[0] == ForwardOutgoing(data, true)
    ensures Run(events + [RunTask([], [], false)]).server == Run(events).server
  {
    RunSnoc(events, RunTask([], [], false));
  }

  predicate Announces(tasks: seq<Task>) {
    exists i :: 0 <= i < |tasks| && tasks[i].NotifyOutgoing?
  }

  /** Data counts as buffered only until it is announced. */
  predicate AmountIsDue(m: Pair) {
    m.client.bufferedAmount > 0 ==> Announces(m.tasks)
  }

  lemma {:induction false} ActDue(m: Pair, a: Action)
    requires AmountIsDue(m)
    ensures AmountIsDue(Act(m, a))
  {
    var m' := Act(m, a);
    if a.AppSend? && m.client.phase == Open { assert m'.tasks[|m.tasks|].NotifyOutgoing?; }
    if Announces(m.tasks) {
      var i :| 0 <= i < |m.tasks| && m.tasks[i].NotifyOutgoing?;
      assert m'.tasks[i] == m.tasks[i];
    }
  }

  lemma {:induction false} ActAllDue(m: Pair, acts: seq<Action>)
    requires AmountIsDue(m)
    ensures AmountIsDue(ActAll(m, acts))
  {
    if acts != [] {
      ActAllDue(m, Init(acts));
      ActDue(ActAll(m, Init(acts)), Last(acts));
    }
  }

  lemma {:induction false} TaskDue(m: Pair, t: Task, pre: seq<Action>, post: seq<Action>, prevented: bool)
    requires AmountIsDue(m) || t.NotifyOutgoing?
    ensures AmountIsDue(DoTask(m, t, pre, post, prevented))
  {
    hide ActAll;
    match t
    case FinishOpen => ActAllDue(m.(client := DispatchOpen(m.client.(phase := Open))), pre + post);
    case DeliverMessage(data) => ActAllDue(m.(client := Deliver(m.client, data)), pre + post);
    case NotifyOutgoing(data) => ActAllDue(DoNotifyOutgoing(m, data, prevented), pre + post);
    case ForwardOutgoing(_, _) =>
    case FireClose(code) =>
      ActAllDue(WithClose(m, code), pre);
      var m1 := ActAll(WithClose(m, code), pre);
      ActAllDue(if m.server.remote.Some? then m1.(server := RelayMockClose(m1.server)) else m1, post);
    case FireServerClose => ActAllDue(m.(server := m.server.(closes := m.server.closes + 1)), pre + post);
  }

  lemma {:induction false} StepDue(m: Pair, e: Event)
    requires AmountIsDue(m)
    ensures AmountIsDue(Step(m, e))
  {
    hide ActAll, DoTask, Announces;
    match e
    case Do(act) => ActDue(m, act);
    case ConnectionHandled(_) => QueueDue(m, FinishOpen);
    case ConnectionThrew => QueueDue(m, FireClose(1011));
    case RunTask(pre, post, prevented) =>
      if m.tasks != [] {
        RestDue(m);
        TaskDue(m.(tasks := m.tasks[1..]), m.tasks[0], pre, post, prevented);
      }
    case RealOpens(acts) =>
      var m1 := m.(server := m.server.(remote := Some(Open)));
      ActAllDue(if m.forwardsOpen then m1.(client := DispatchOpen(m1.client)) else m1, acts);
    case RealMessage(_, acts, _) => ActAllDue(m, acts);
    case RealCloses(code, acts, _) =>
      ActAllDue(WithRealClose(m), acts);
      QueueDue(ActAll(WithRealClose(m), acts), FireClose(code));
  }

  lemma QueueDue(m: Pair, t: Task)
    ensures Announces(m.tasks) ==> Announces(m.tasks + [t])
  {
    if Announces(m.tasks) {
      var i :| 0 <= i < |m.tasks| && m.tasks[i].NotifyOutgoing?;
      assert (m.tasks + [t])[i] == m.tasks[i];
    }
  }

  lemma RestDue(m: Pair)
    requires m.tasks != [] && AmountIsDue(m)
    ensures AmountIsDue(m.(tasks := m.tasks[1..])) || m.tasks[0].NotifyOutgoing?
  {
    if Announces(m.tasks) && !m.tasks[0].NotifyOutgoing? {
      var i :| 0 <= i < |m.tasks| && m.tasks[i].NotifyOutgoing?;
      assert m.tasks[1..][i - 1] == m.tasks[i];
    }
  }

  lemma {:induction false} RunDue(events: seq<Event>)
    ensures AmountIsDue(Run(events))
  {
    if events != [] {
      RunDue(Init(events));
      StepDue(Run(Init(events)), Last(events));
    }
  }

  lemma {:induction false} DrainDue(m: Pair)
    requires AmountIsDue(m)
    ensures AmountIsDue(Drain(m)) && Drain(m).tasks == []
    decreases Weight(m.tasks)
  {
    if m.tasks != [] {
      assert Step(m, RunTask([], [], false)) == Idle(m);
      IdleTaskShrinks(m);
      StepDue(m, RunTask([], [], false));
      DrainDue(Idle(m));
    }
  }

  /** Data an open client sends counts as buffered, and nothing else changes that. */
  lemma {:induction false} SendIsBuffered(events: seq<Event>, a: Action)
    ensures Run(events + [Do(a)]).client.bufferedAmount ==
            Run(events).client.bufferedAmount + (if a.AppSend? && Run(events).client.phase == Open then |a.data| else 0)
  {
    RunSnoc(events, Do(a));
  }

  /** At rest nothing counts as buffered. */
  lemma {:induction false} NothingStaysBuffered(events: seq<Event>)
    ensures Drain(Run(events)).client.bufferedAmount == 0
  {
    RunDue(events);
    DrainDue(Run(events));
  }
}
