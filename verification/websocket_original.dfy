/**
 The connection of a mocked WebSocket to its original server: in what order the data
 sent to it is handed over, and whether the client's close reaches it.
 */
module WebSocketOriginal {
  import opened Prelude
  import opened WebSocketPair

  // ---------------------------------------------------------------------
  // The order of what is handed over
  // ---------------------------------------------------------------------

  predicate Numbered(parcels: seq<Parcel>) {
    forall i :: 0 <= i < |parcels| ==> parcels[i].number == i
  }

  predicate HandedInOrder(s: Server) {
    s.handed + s.waiting == s.accepted
  }

  /** Nothing is handed over before the connection opens, and nothing waits while it is open. */
  predicate Flowing(s: Server) {
    && Numbered(s.accepted)
    && (s.remote.None? || s.remote == Some(Connecting) || s.waiting != [] ==> s.handed == [] && s.waiting == s.accepted)
    && (s.remote == Some(Open) ==> s.waiting == [])
    && multiset(s.handed) + multiset(s.waiting) == multiset(s.accepted)
  }

  /** Between two states the order was neither lost nor restored. */
  predicate Flows(s: Server, s': Server) {
    Flowing(s') && (HandedInOrder(s') <==> HandedInOrder(s))
  }

  lemma {:induction false} OneMore(parcels: seq<Parcel>, x: Parcel)
    ensures Numbered(parcels) && x.number == |parcels| ==> Numbered(parcels + [x])
    ensures multiset(parcels + [x]) == multiset(parcels) + multiset{x}
  {
  }

  lemma {:induction false} WaitingGrows(s: Server, x: Parcel)
    requires Flowing(s) && s.remote == Some(Connecting) && x.number == |s.accepted|
    ensures Flows(s, s.(waiting := s.waiting + [x], accepted := s.accepted + [x]))
  {
    OneMore(s.accepted, x);
    hide Numbered;
    assert [] + s.accepted == s.accepted && [] + (s.accepted + [x]) == s.accepted + [x];
  }

  lemma {:induction false} HandedGrows(s: Server, x: Parcel)
    requires Flowing(s) && s.remote == Some(Open) && x.number == |s.accepted|
    ensures Flows(s, s.(handed := s.handed + [x], accepted := s.accepted + [x]))
  {
    OneMore(s.accepted, x);
    OneMore(s.handed, x);
    hide Numbered;
    assert s.handed + [] == s.handed && (s.handed + [x]) + [] == s.handed + [x];
    SameEnd(s.handed, s.accepted, x);
  }

  lemma {:induction false} SameEnd(a: seq<Parcel>, b: seq<Parcel>, x: Parcel)
    ensures a + [x] == b + [x] <==> a == b
  {
    InitOfSnoc(a, x);
    InitOfSnoc(b, x);
  }

  lemma {:induction false} SendFlows(m: Pair, data: Data)
    requires Flowing(m.server)
    ensures Flows(m.server, DoServerSend(m, data).server)
  {
    var s, x := m.server, NextParcel(m.server, data);
    if s.remote == Some(Connecting) {
      WaitingGrows(s, x);
    } else if s.remote == Some(Open) {
      HandedGrows(s, x);
    }
    hide Numbered;
  }

  /** What only a send or the opening changes. */
  predicate SameParcels(s: Server, s': Server) {
    s'.handed == s.handed && s'.waiting == s.waiting && s'.accepted == s.accepted
  }

  lemma ActFlows(m: Pair, a: Action)
    requires Flowing(m.server)
    ensures Flows(m.server, Act(m, a).server)
  {
    if a.ServerSend? {
      SendFlows(m, a.data);
    } else {
      SilentAct(m, a);
    }
  }

  lemma SilentAct(m: Pair, a: Action)
    requires !a.ServerSend?
    ensures SameParcels(m.server, Act(m, a).server)
    ensures m.server.remote.Some? && !a.ServerClose? ==> Act(m, a).server.remote == m.server.remote
    ensures m.server.remote.Some? && a.ServerClose? ==> Ended(Act(m, a).server.remote.value)
    ensures m.server.remote.None? ==> Act(m, a).server.remote.None? || Act(m, a).server.remote == Some(Connecting)
  {
    match a
    case AppSend(_) => assert Act(m, a).server == m.server;
    case AppClose(_) => assert Act(m, a).server == m.server;
    case ClientSend(_) => assert Act(m, a).server == m.server;
    case ClientClose(_) => assert Act(m, a).server == m.server;
    case ServerConnect =>
    case ServerClose =>
  }

  lemma {:induction false} ActAllFlows(m: Pair, acts: seq<Action>)
    requires Flowing(m.server)
    ensures Flows(m.server, ActAll(m, acts).server)
  {
    if acts != [] {
      ActAllFlows(m, Init(acts));
      ActFlows(ActAll(m, Init(acts)), Last(acts));
    }
  }

  /** Only the parcels, and whether the connection is there, open or ended, matter to the flow. */
  lemma {:induction false} SameFlows(s: Server, s': Server)
    requires Flowing(s) && SameParcels(s, s')
    requires s'.remote == s.remote || (s'.remote.Some? && Ended(s'.remote.value))
    ensures Flows(s, s')
  {
    hide Numbered;
  }

  lemma {:induction false} RelayFlows(s: Server)
    requires Flowing(s)
    ensures Flows(s, RelayMockClose(s))
  {
    hide Flowing, HandedInOrder;
    SameFlows(s, RelayMockClose(s));
  }

  lemma {:induction false} FireCloseFlows(m: Pair, code: nat, pre: seq<Action>, post: seq<Action>)
    requires Flowing(m.server)
    ensures Flows(m.server, DoFireClose(m, code, pre, post).server)
  {
    hide ActAll, Flowing, HandedInOrder;
    ActAllFlows(WithClose(m, code), pre);
    var m1 := ActAll(WithClose(m, code), pre);
    RelayFlows(m1.server);
    ActAllFlows(if m.server.remote.Some? then m1.(server := RelayMockClose(m1.server)) else m1, post);
  }

  lemma {:induction false} TaskFlows(m: Pair, t: Task, pre: seq<Action>, post: seq<Action>, prevented: bool)
    requires Flowing(m.server)
    ensures Flows(m.server, DoTask(m, t, pre, post, prevented).server)
  {
    hide ActAll, Flowing, HandedInOrder;
    match t
    case FinishOpen => ActAllFlows(m.(client := DispatchOpen(m.client.(phase := Open))), pre + post);
    case DeliverMessage(data) => ActAllFlows(m.(client := Deliver(m.client, data)), pre + post);
    case NotifyOutgoing(data) => ActAllFlows(DoNotifyOutgoing(m, data, prevented), pre + post);
    case ForwardOutgoing(data, _) => SendFlows(m, data);
    case FireClose(code) => FireCloseFlows(m, code, pre, post);
    case FireServerClose =>
      var s' := m.server.(closes := m.server.closes + 1);
      SameFlows(m.server, s');
      ActAllFlows(m.(server := s'), pre + post);
  }

  /** A send in the list is reached while the connection is still open. */
  predicate SendsAt(acts: seq<Action>, i: nat)
    requires i < |acts|
  {
    acts[i].ServerSend? && ServerClose !in acts[..i]
  }

  predicate Sends(acts: seq<Action>) {
    exists i :: 0 <= i < |acts| && SendsAt(acts, i)
  }

  /** What a list of actions on an open connection sends, numbered from a position on. */
  function SentBy(acts: seq<Action>, from: nat): seq<Parcel> {
    if acts == [] then [] else
      var before := SentBy(Init(acts), from);
      if SendsAt(acts, |acts| - 1) then before + [Parcel(from + |before|, Last(acts).data)] else before
  }

  lemma {:induction false} SentByIff(acts: seq<Action>, from: nat)
    ensures SentBy(acts, from) != [] <==> Sends(acts)
    ensures forall i :: 0 <= i < |SentBy(acts, from)| ==> SentBy(acts, from)[i].number == from + i
  {
    if acts != [] {
      SentByIff(Init(acts), from);
      forall i | 0 <= i < |acts| - 1 ensures SendsAt(acts, i) <==> SendsAt(Init(acts), i) {
        assert acts[..i] == Init(acts)[..i];
      }
    }
  }

  /** On an open connection, whatever waits, the sends of a list are handed over at once. */
  lemma {:induction false} OpenActs(m: Pair, acts: seq<Action>)
    requires m.server.remote == Some(Open)
    ensures var s, s', sent := m.server, ActAll(m, acts).server, SentBy(acts, |m.server.accepted|);
            && s'.handed == s.handed + sent && s'.accepted == s.accepted + sent && s'.waiting == s.waiting
            && s'.remote.Some? && (if ServerClose in acts then Ended(s'.remote.value) else s'.remote == Some(Open))
  {
    if acts != [] {
      OpenActs(m, Init(acts));
      assert acts[..|acts| - 1] == Init(acts);
      InitLast(acts);
      OpenAct(m.server, ActAll(m, Init(acts)), Init(acts), Last(acts));
    }
  }

  lemma OpenAct(s: Server, m: Pair, before: seq<Action>, a: Action)
    requires m.server.remote.Some?
    requires if ServerClose in before then Ended(m.server.remote.value) else m.server.remote == Some(Open)
    ensures var sent := if a.ServerSend? && ServerClose !in before then [NextParcel(m.server, a.data)] else [];
            var s' := Act(m, a).server;
            && s'.handed == m.server.handed + sent && s'.accepted == m.server.accepted + sent
            && s'.waiting == m.server.waiting && s'.remote.Some?
            && (if ServerClose in before + [a] then Ended(s'.remote.value) else s'.remote == Some(Open))
  {
    ServerActGoesForward(m, a);
    if !a.ServerSend? { SilentAct(m, a); }
  }

  /** The connection opens while something waits, and a listener of that event sends. */
  predicate Overtakes(m: Pair, e: Event) {
    e.RealOpens? && m.server.remote == Some(Connecting) && m.server.waiting != [] && Sends(e.acts)
  }

  lemma {:induction false} OvertakenOrNot(waiting: seq<Parcel>, sent: seq<Parcel>)
    requires Numbered(waiting) && forall i :: 0 <= i < |sent| ==> sent[i].number == |waiting| + i
    ensures sent + waiting == waiting + sent <==> waiting == [] || sent == []
    ensures Numbered(waiting + sent)
    ensures multiset(sent + waiting) == multiset(waiting + sent)
  {
    if waiting != [] && sent != [] {
      assert (sent + waiting)[0].number == |waiting| && (waiting + sent)[0].number == 0;
    } else {
      assert sent + waiting == waiting + sent;
    }
    assert multiset(sent + waiting) == multiset(waiting) + multiset(sent);
  }

  /** The server side once the connection opened: what was sent meanwhile, then what waited. */
  lemma {:induction false} OpenedServer(m: Pair, acts: seq<Action>)
    requires Flowing(m.server) && m.server.remote == Some(Connecting)
    ensures var s', waiting, sent := DoRealOpens(m, acts).server, m.server.waiting, SentBy(acts, |m.server.waiting|);
            && s'.handed == sent + waiting && s'.accepted == waiting + sent && s'.waiting == []
            && s'.remote.Some? && s'.remote != Some(Connecting)
  {
    var m1 := m.(server := m.server.(remote := Some(Open)));
    var m2 := if m.forwardsOpen then m1.(client := DispatchOpen(m1.client)) else m1;
    hide ActAll, SentBy, DispatchOpen, Numbered;
    OpenActs(m2, acts);
    var sent := SentBy(acts, |m.server.accepted|);
    assert [] + sent == sent;
  }

  lemma {:induction false} RealOpensFlows(m: Pair, acts: seq<Action>)
    requires Flowing(m.server)
    ensures Flowing(DoRealOpens(m, acts).server)
    ensures HandedInOrder(DoRealOpens(m, acts).server) <==>
              HandedInOrder(m.server) && !Overtakes(m, RealOpens(acts))
  {
    if m.server.remote == Some(Connecting) {
      OpenedServer(m, acts);
      hide ActAll, SentBy, DoRealOpens, Sends;
      OpenedInOrder(m.server, DoRealOpens(m, acts).server, acts);
    }
  }

  lemma {:induction false} NothingWaits(s: Server)
    requires s.waiting == [] && s.remote.Some? && s.remote != Some(Connecting)
    requires Numbered(s.accepted) && multiset(s.handed) == multiset(s.accepted)
    ensures Flowing(s) && (HandedInOrder(s) <==> s.handed == s.accepted)
  {
    assert s.handed + [] == s.handed;
    hide Numbered;
  }

  lemma {:induction false} NothingHanded(s: Server)
    requires Flowing(s) && s.remote == Some(Connecting)
    ensures HandedInOrder(s) && s.accepted == s.waiting && Numbered(s.waiting)
  {
    assert [] + s.waiting == s.waiting;
    hide Numbered;
  }

  lemma {:induction false} OpenedInOrder(s: Server, s': Server, acts: seq<Action>)
    requires Flowing(s) && s.remote == Some(Connecting)
    requires var sent := SentBy(acts, |s.waiting|);
             s'.handed == sent + s.waiting && s'.accepted == s.waiting + sent && s'.waiting == []
    requires s'.remote.Some? && s'.remote != Some(Connecting)
    ensures Flowing(s') && HandedInOrder(s) && (HandedInOrder(s') <==> s.waiting == [] || !Sends(acts))
  {
    hide *;
    NothingHanded(s);
    SentByIff(acts, |s.waiting|);
    OvertakenOrNot(s.waiting, SentBy(acts, |s.waiting|));
    NothingWaits(s');
  }

  lemma {:induction false} StepFlows(m: Pair, e: Event)
    requires Flowing(m.server)
    ensures Flowing(Step(m, e).server)
    ensures HandedInOrder(Step(m, e).server) <==> HandedInOrder(m.server) && !Overtakes(m, e)
  {
    var handled := m.(decided := true, forwardsOpen := true);
    assert Act(handled, ServerConnect) == DoConnect(handled);
    assert !e.RealOpens? ==> !Overtakes(m, e);
    hide ActAll, Act, DoConnect, DoRealOpens, DoRealCloses, Flowing, HandedInOrder, DoTask, Overtakes;
    match e
    case Do(act) => ActFlows(m, act);
    case ConnectionHandled(_) => ActFlows(handled, ServerConnect);
    case ConnectionThrew =>
    case RunTask(pre, post, prevented) =>
      if m.tasks != [] { TaskFlows(m.(tasks := m.tasks[1..]), m.tasks[0], pre, post, prevented); }
    case RealOpens(acts) => RealOpensFlows(m, acts);
    case RealMessage(_, acts, _) => ActAllFlows(m, acts);
    case RealCloses(code, acts, prevented) => RealClosesFlows(m, code, acts, prevented);
  }

  lemma {:induction false} RealClosesFlows(m: Pair, code: nat, acts: seq<Action>, prevented: bool)
    requires Flowing(m.server)
    ensures Flows(m.server, DoRealCloses(m, code, acts, prevented).server)
  {
    hide ActAll, Flowing, HandedInOrder;
    if m.server.remote.Some? {
      SameFlows(m.server, m.server.(remote := Some(Closed)));
      SameFlows(m.server, WithRealClose(m).server);
      ActAllFlows(WithRealClose(m), acts);
      var m1 := ActAll(WithRealClose(m), acts);
      SameFlows(m1.server, m1.server.(relays := m1.server.relays + 1));
    }
  }

  /** An event of a run at which a send overtakes what was waiting. */
  predicate OvertakesAt(events: seq<Event>, k: nat)
    requires k < |events|
  {
    Overtakes(Run(events[..k]), events[k])
  }

  lemma {:induction false} OvertakesAtInit(events: seq<Event>)
    requires events != []
    ensures (forall k :: 0 <= k < |events| ==> !OvertakesAt(events, k)) <==>
              (forall k :: 0 <= k < |Init(events)| ==> !OvertakesAt(Init(events), k))
              && !Overtakes(Run(Init(events)), Last(events))
  {
    hide Overtakes, Run;
    var before, last := Init(events), |events| - 1;
    assert events[..last] == before && (OvertakesAt(events, last) <==> Overtakes(Run(before), Last(events)));
    forall k | 0 <= k < last ensures OvertakesAt(before, k) <==> OvertakesAt(events, k) {
      assert before[..k] == events[..k];
    }
  }

  /**
   Whatever was accepted is handed over once or still waits; and that in the order of
   the calls exactly when no listener of the "open" event sends while something waits.
   */
  lemma {:induction false} ServerSendsInOrderIff(events: seq<Event>)
    ensures Flowing(Run(events).server)
    ensures HandedInOrder(Run(events).server) <==> forall k :: 0 <= k < |events| ==> !OvertakesAt(events, k)
  {
    if events == [] {
      assert [] + Fresh.server.waiting == Fresh.server.accepted;
    } else {
      ServerSendsInOrderIff(Init(events));
      StepFlows(Run(Init(events)), Last(events));
      OvertakesAtInit(events);
      hide Flowing, HandedInOrder, Overtakes, OvertakesAt, Step;
    }
  }

  // ---------------------------------------------------------------------
  // Closing reaches the original connection
  // ---------------------------------------------------------------------

  /** A connection is in time until the client is closed, and a closed client leaves none of those open. */
  predicate NoneLeftOpen(phase: Phase, s: Server) {
    && (s.inTime ==> s.remote.Some?)
    && (s.remote.Some? && phase != Closed ==> s.inTime)
    && (phase == Closed && s.inTime ==> Ended(s.remote.value))
  }

  predicate Settled(m: Pair) {
    NoneLeftOpen(m.client.phase, m.server)
  }

  lemma {:induction false} ActSettles(m: Pair, a: Action)
    requires Settled(m)
    ensures Settled(Act(m, a))
  {
    ActGoesForward(m, a);
  }

  lemma {:induction false} ActAllSettles(m: Pair, acts: seq<Action>)
    requires Settled(m)
    ensures Settled(ActAll(m, acts))
  {
    if acts != [] {
      ActAllSettles(m, Init(acts));
      ActSettles(ActAll(m, Init(acts)), Last(acts));
    }
  }

  /** Whoever connects while the client is closing: only in time is the connection listened to. */
  lemma {:induction false} LateActs(m: Pair, acts: seq<Action>)
    requires m.client.phase == Closed
    ensures var s, s' := m.server, ActAll(m, acts).server;
            && ActAll(m, acts).client.phase == Closed
            && (s.remote.Some? ==> s'.remote.Some? && s'.inTime == s.inTime)
            && (s.remote.None? && !s.inTime ==> !s'.inTime)
  {
    if acts != [] {
      LateActs(m, Init(acts));
      ActGoesForward(ActAll(m, Init(acts)), Last(acts));
    }
  }

  lemma {:induction false} FireCloseSettles(m: Pair, code: nat, pre: seq<Action>, post: seq<Action>)
    requires Settled(m) && m.client.phase == Closing && RelayOnce(m.client.phase, m.server)
    ensures Settled(DoFireClose(m, code, pre, post))
  {
    var m0 := WithClose(m, code);
    LateActs(m0, pre);
    ActAllGoesForward(m0, pre);
    var m1 := ActAll(m0, pre);
    hide ActAll;
    ActAllSettles(if m.server.remote.Some? then m1.(server := RelayMockClose(m1.server)) else m1, post);
  }

  lemma {:induction false} TaskSettles(m: Pair, t: Task, pre: seq<Action>, post: seq<Action>, prevented: bool)
    requires Settled(m) && CoreWith(m, t)
    ensures Settled(DoTask(m, t, pre, post, prevented))
  {
    hide ActAll, View, Queued;
    match t
    case FinishOpen =>
      if m.client.phase == Connecting { ActAllSettles(m.(client := DispatchOpen(m.client.(phase := Open))), pre + post); }
    case DeliverMessage(data) => ActAllSettles(m.(client := Deliver(m.client, data)), pre + post);
    case NotifyOutgoing(data) => ActAllSettles(DoNotifyOutgoing(m, data, prevented), pre + post);
    case ForwardOutgoing(data, _) => ActSettles(m, ServerSend(data));
    case FireClose(code) => FireCloseSettles(m, code, pre, post);
    case FireServerClose => ActAllSettles(m.(server := m.server.(closes := m.server.closes + 1)), pre + post);
  }

  lemma {:induction false} StepSettles(m: Pair, e: Event)
    requires Settled(m) && Core(m)
    ensures Settled(Step(m, e))
  {
    hide ActAll;
    match e
    case Do(act) => ActSettles(m, act);
    case ConnectionHandled(_) => ActSettles(m.(decided := true, forwardsOpen := true), ServerConnect);
    case ConnectionThrew =>
    case RunTask(pre, post, prevented) =>
      if m.tasks != [] {
        QueuedHead(m.tasks);
        TaskSettles(m.(tasks := m.tasks[1..]), m.tasks[0], pre, post, prevented);
      }
    case RealOpens(acts) => RealOpensSettles(m, acts);
    case RealMessage(_, acts, _) => ActAllSettles(m, acts);
    case RealCloses(_, acts, _) => if m.server.remote.Some? { ActAllSettles(WithRealClose(m), acts); }
  }

  lemma {:induction false} RealOpensSettles(m: Pair, acts: seq<Action>)
    requires Settled(m)
    ensures Settled(DoRealOpens(m, acts))
  {
    if m.server.remote == Some(Connecting) {
      var m1 := m.(server := m.server.(remote := Some(Open)));
      ActAllSettles(if m.forwardsOpen then m1.(client := DispatchOpen(m1.client)) else m1, acts);
    }
  }

  /** The client's close reaches every original connection made before it was dispatched. */
  lemma {:induction false} CloseReachesTheServer(events: seq<Event>)
    ensures Settled(Run(events))
  {
    if events != [] {
      CloseReachesTheServer(Init(events));
      RunKeeps(Init(events));
      StepSettles(Run(Init(events)), Last(events));
    }
  }

  // ---------------------------------------------------------------------
  // Nothing else closes it
  // ---------------------------------------------------------------------

  /** The actions that an event runs. */
  function ActsOf(e: Event): seq<Action> {
    match e
    case Do(act) => [act]
    case ConnectionHandled(_) => []
    case ConnectionThrew => []
    case RunTask(pre, post, _) => pre + post
    case RealOpens(acts) => acts
    case RealMessage(_, acts, _) => acts
    case RealCloses(_, acts, _) => acts
  }

  /** Nobody but the client closes: the original server does not, nor the interceptor the connection to it. */
  predicate OnlyClientCloses(e: Event) {
    !e.RealCloses? && ServerClose !in ActsOf(e)
  }

  /** Only a connection made in time was closed. */
  predicate ClosedInTime(s: Server) {
    s.remote.Some? && Ended(s.remote.value) ==> s.inTime
  }

  lemma {:induction false} ActsLeaveOpen(m: Pair, acts: seq<Action>)
    requires ServerClose !in acts
    ensures var s, s' := m.server, ActAll(m, acts).server;
            (s'.remote == s.remote && s'.inTime == s.inTime) || (s.remote.None? && s'.remote == Some(Connecting))
  {
    if acts != [] {
      InitLast(acts);
      ActsLeaveOpen(m, Init(acts));
      ActLeavesOpen(ActAll(m, Init(acts)), Last(acts));
    }
  }

  lemma ActLeavesOpen(m: Pair, a: Action)
    requires a != ServerClose
    ensures var s, s' := m.server, Act(m, a).server;
            (s'.remote == s.remote && s'.inTime == s.inTime) || (s.remote.None? && s'.remote == Some(Connecting))
  {
    ServerActGoesForward(m, a);
    if !a.ServerSend? { SilentAct(m, a); }
  }

  lemma {:induction false} FireCloseInTime(m: Pair, code: nat, pre: seq<Action>, post: seq<Action>)
    requires ClosedInTime(m.server) && Settled(m) && m.client.phase == Closing
    requires ServerClose !in pre && ServerClose !in post
    ensures ClosedInTime(DoFireClose(m, code, pre, post).server)
  {
    hide ActAll;
    ActsLeaveOpen(WithClose(m, code), pre);
    var m1 := ActAll(WithClose(m, code), pre);
    ActsLeaveOpen(if m.server.remote.Some? then m1.(server := RelayMockClose(m1.server)) else m1, post);
  }

  lemma {:induction false} TaskInTime(m: Pair, t: Task, pre: seq<Action>, post: seq<Action>, prevented: bool)
    requires ClosedInTime(m.server) && Settled(m) && CoreWith(m, t) && ServerClose !in pre + post
    ensures ClosedInTime(DoTask(m, t, pre, post, prevented).server)
  {
    hide ActAll, View, Queued;
    match t
    case FinishOpen => ActsLeaveOpen(m.(client := DispatchOpen(m.client.(phase := Open))), pre + post);
    case DeliverMessage(data) => ActsLeaveOpen(m.(client := Deliver(m.client, data)), pre + post);
    case NotifyOutgoing(data) => ActsLeaveOpen(DoNotifyOutgoing(m, data, prevented), pre + post);
    case ForwardOutgoing(data, _) => ActLeavesOpen(m, ServerSend(data));
    case FireClose(code) =>
      assert forall a :: a in pre || a in post ==> a in pre + post;
      FireCloseInTime(m, code, pre, post);
    case FireServerClose => ActsLeaveOpen(m.(server := m.server.(closes := m.server.closes + 1)), pre + post);
  }

  lemma {:induction false} StepInTime(m: Pair, e: Event)
    requires ClosedInTime(m.server) && Settled(m) && Core(m) && OnlyClientCloses(e)
    ensures ClosedInTime(Step(m, e).server)
  {
    hide ActAll;
    match e
    case Do(act) => ActLeavesOpen(m, act);
    case ConnectionHandled(_) => ActLeavesOpen(m.(decided := true, forwardsOpen := true), ServerConnect);
    case ConnectionThrew =>
    case RunTask(pre, post, prevented) =>
      if m.tasks != [] {
        QueuedHead(m.tasks);
        TaskInTime(m.(tasks := m.tasks[1..]), m.tasks[0], pre, post, prevented);
      }
    case RealOpens(acts) =>
      var m1 := m.(server := m.server.(remote := Some(Open)));
      ActsLeaveOpen(if m.forwardsOpen then m1.(client := DispatchOpen(m1.client)) else m1, acts);
    case RealMessage(_, acts, _) => ActsLeaveOpen(m, acts);
  }

  lemma {:induction false} RunInTime(events: seq<Event>)
    requires forall e :: e in events ==> OnlyClientCloses(e)
    ensures ClosedInTime(Run(events).server)
  {
    if events != [] {
      InitLast(events);
      RunInTime(Init(events));
      RunKeeps(Init(events));
      CloseReachesTheServer(Init(events));
      StepInTime(Run(Init(events)), Last(events));
    }
  }

  /**
   When nobody but the client closes, the original connection of a closed client is
   ending exactly when it was made before the client's close event was dispatched.
   */
  lemma ClosedIffInTime(events: seq<Event>)
    requires forall e :: e in events ==> OnlyClientCloses(e)
    ensures var m := Run(events);
            m.client.phase == Closed && m.server.remote.Some? ==>
              (Ended(m.server.remote.value) <==> m.server.inTime)
  {
    CloseReachesTheServer(events);
    RunInTime(events);
  }

  // ---------------------------------------------------------------------
  // What is not guaranteed
  // ---------------------------------------------------------------------

  /** A connection made after the client closed is closed by nobody: everything is at rest, and it is open. */
  lemma {:induction false} LateConnectStaysOpen(code: nat)
    ensures var m := Run([Do(ClientClose(code)), RunTask([], [], false), Do(ServerConnect), RealOpens([])]);
            && m.client.phase == Closed && m.tasks == [] && m.server.remote == Some(Open)
            && m.client.events == [GotClose(code)]
  {
    var e1 := [Do(ClientClose(code))];
    var e2 := e1 + [RunTask([], [], false)];
    var e3 := e2 + [Do(ServerConnect)];
    RunSnoc([], Do(ClientClose(code)));
    assert [] + [Do(ClientClose(code))] == e1;
    assert Run(e1) == Fresh.(client := Fresh.client.(phase := Closing), tasks := [FireClose(code)]);
    RunSnoc(e1, RunTask([], [], false));
    RunSnoc(e2, Do(ServerConnect));
    RunSnoc(e3, RealOpens([]));
    assert e3 + [RealOpens([])] == [Do(ClientClose(code)), RunTask([], [], false), Do(ServerConnect), RealOpens([])];
  }

  /** A listener of the server side's "open" event that sends overtakes what was waiting. */
  lemma {:induction false} OpenListenerOvertakes(first: Data, second: Data)
    ensures Run([Do(ServerConnect), Do(ServerSend(first)), RealOpens([ServerSend(second)])]).server.handed ==
            [Parcel(1, second), Parcel(0, first)]
  {
    var e1 := [Do(ServerConnect)];
    var e2 := e1 + [Do(ServerSend(first))];
    RunSnoc([], Do(ServerConnect));
    assert [] + [Do(ServerConnect)] == e1;
    RunSnoc(e1, Do(ServerSend(first)));
    RunSnoc(e2, RealOpens([ServerSend(second)]));
    assert e2 + [RealOpens([ServerSend(second)])] ==
           [Do(ServerConnect), Do(ServerSend(first)), RealOpens([ServerSend(second)])];
    var m := Run(e2).(server := Run(e2).server.(remote := Some(Open)));
    assert Init([ServerSend(second)]) == [];
    assert ActAll(m, [ServerSend(second)]) == Act(ActAll(m, []), ServerSend(second));
  }
}
