/**
 Messages of the original server, forwarded to the client: nothing makes them wait for
 the client's "open" event, and nothing stops them after its "close" event.
 */
module WebSocketForwarding {
  import opened Prelude
  import opened WebSocketPair
  import opened WebSocketOriginal

  /** A forwarded message the client got without having got "open". */
  predicate ForwardedEarly(trace: seq<ClientEvent>) {
    exists i :: 0 <= i < |trace| && trace[i].GotForwarded? && GotOpen !in trace[..i]
  }

  predicate SawClose(trace: seq<ClientEvent>) {
    exists i :: 0 <= i < |trace| && trace[i].GotClose?
  }

  /** A forwarded message the client got after "close". */
  predicate ForwardedLate(trace: seq<ClientEvent>) {
    exists i :: 0 <= i < |trace| && trace[i].GotForwarded? && SawClose(trace[..i])
  }

  /** A message arrives on the open connection and no listener prevents it. */
  predicate Forwards(m: Pair, e: Event) {
    e.RealMessage? && !e.prevented && m.server.remote == Some(Open)
  }

  /** The client's "open" event is dispatched: by itself, or when the connection it stands for opens. */
  predicate Opens(m: Pair, e: Event) {
    || (e.RunTask? && m.tasks != [] && m.tasks[0] == FinishOpen && m.client.phase == Connecting)
    || (e.RealOpens? && m.server.remote == Some(Connecting) && m.forwardsOpen)
  }

  predicate ForwardsAt(events: seq<Event>, k: nat)
    requires k < |events|
  {
    Forwards(Run(events[..k]), events[k])
  }

  predicate OpensAt(events: seq<Event>, k: nat)
    requires k < |events|
  {
    Opens(Run(events[..k]), events[k])
  }

  predicate OpenedBy(events: seq<Event>) {
    exists k :: 0 <= k < |events| && OpensAt(events, k)
  }

  /** A message is forwarded and "open" was not dispatched before. */
  predicate EarlyAt(events: seq<Event>, k: nat)
    requires k < |events|
  {
    ForwardsAt(events, k) && !OpenedBy(events[..k])
  }

  /** A message is forwarded and the client is closed. */
  predicate LateAt(events: seq<Event>, k: nat)
    requires k < |events|
  {
    ForwardsAt(events, k) && Run(events[..k]).client.phase == Closed
  }

  // ---------------------------------------------------------------------
  // What an event adds to the client's events
  // ---------------------------------------------------------------------

  /** What a microtask dispatches on the client. */
  function TaskDispatches(m: Pair, t: Task): seq<ClientEvent> {
    match t
    case FinishOpen => if m.client.phase == Connecting then [GotOpen] + Delivered(m.client.deferred) else []
    case DeliverMessage(data) => if m.client.phase == Open then [GotMessage(data)] else []
    case FireClose(code) => [GotClose(code)]
    case _ => []
  }

  function Dispatches(m: Pair, e: Event): seq<ClientEvent> {
    match e
    case RunTask(_, _, _) => if m.tasks == [] then [] else TaskDispatches(m, m.tasks[0])
    case RealOpens(_) => if Opens(m, e) then [GotOpen] + Delivered(m.client.deferred) else []
    case RealMessage(data, _, _) => if Forwards(m, e) then [GotForwarded(data)] else []
    case _ => []
  }

  lemma {:induction false} TaskAdds(m: Pair, t: Task, pre: seq<Action>, post: seq<Action>, prevented: bool)
    ensures DoTask(m, t, pre, post, prevented).client.events == m.client.events + TaskDispatches(m, t)
  {
    hide ActAll;
    var trace := m.client.events;
    assert trace + [] == trace && (trace + [GotOpen]) + Delivered(m.client.deferred) ==
           trace + ([GotOpen] + Delivered(m.client.deferred));
    match t
    case FinishOpen => ActAllGoesForward(m.(client := DispatchOpen(m.client.(phase := Open))), pre + post);
    case DeliverMessage(data) => ActAllGoesForward(m.(client := Deliver(m.client, data)), pre + post);
    case NotifyOutgoing(data) => ActAllGoesForward(DoNotifyOutgoing(m, data, prevented), pre + post);
    case ForwardOutgoing(_, _) =>
    case FireClose(code) =>
      ActAllGoesForward(WithClose(m, code), pre);
      var m1 := ActAll(WithClose(m, code), pre);
      ActAllGoesForward(if m.server.remote.Some? then m1.(server := RelayMockClose(m1.server)) else m1, post);
    case FireServerClose => ActAllGoesForward(m.(server := m.server.(closes := m.server.closes + 1)), pre + post);
  }

  lemma {:induction false} StepAdds(m: Pair, e: Event)
    ensures Step(m, e).client.events == m.client.events + Dispatches(m, e)
  {
    hide ActAll;
    var trace := m.client.events;
    assert trace + [] == trace;
    match e
    case Do(act) => ClientActGoesForward(m, act);
    case ConnectionHandled(_) =>
    case ConnectionThrew =>
    case RunTask(pre, post, prevented) =>
      if m.tasks != [] { TaskAdds(m.(tasks := m.tasks[1..]), m.tasks[0], pre, post, prevented); }
    case RealOpens(acts) =>
      var m1 := m.(server := m.server.(remote := Some(Open)));
      ActAllGoesForward(if m.forwardsOpen then m1.(client := DispatchOpen(m1.client)) else m1, acts);
      assert (trace + [GotOpen]) + Delivered(m.client.deferred) == trace + ([GotOpen] + Delivered(m.client.deferred));
    case RealMessage(_, acts, _) => ActAllGoesForward(m, acts);
    case RealCloses(_, acts, _) => ActAllGoesForward(WithRealClose(m), acts);
  }

  /** Of what an event dispatches: a forwarded message comes alone, and "open" comes first. */
  lemma {:induction false} DispatchesOneKind(m: Pair, e: Event)
    ensures var added := Dispatches(m, e);
            && (GotOpen in added <==> Opens(m, e))
            && (Forwards(m, e) ==> |added| == 1 && added[0].GotForwarded?)
            && (!Forwards(m, e) ==> forall i :: 0 <= i < |added| ==> !added[i].GotForwarded?)
  {
    if Opens(m, e) { assert Dispatches(m, e)[0] == GotOpen; }
  }

  lemma {:induction false} EarlyGrows(trace: seq<ClientEvent>, added: seq<ClientEvent>, forwards: bool)
    requires forwards ==> |added| == 1 && added[0].GotForwarded?
    requires !forwards ==> forall i :: 0 <= i < |added| ==> !added[i].GotForwarded?
    ensures ForwardedEarly(trace + added) <==> ForwardedEarly(trace) || (forwards && GotOpen !in trace)
  {
    var all := trace + added;
    if i :| 0 <= i < |trace| && trace[i].GotForwarded? && GotOpen !in trace[..i] {
      assert all[i] == trace[i] && all[..i] == trace[..i];
    }
    if forwards && GotOpen !in trace {
      assert all[|trace|] == added[0] && all[..|trace|] == trace;
    }
    if i :| 0 <= i < |all| && all[i].GotForwarded? && GotOpen !in all[..i] {
      if i < |trace| { assert all[i] == trace[i] && all[..i] == trace[..i]; } else { assert all[..|trace|] == trace; }
    }
  }

  lemma {:induction false} LateGrows(trace: seq<ClientEvent>, added: seq<ClientEvent>, forwards: bool)
    requires forwards ==> |added| == 1 && added[0].GotForwarded?
    requires !forwards ==> forall i :: 0 <= i < |added| ==> !added[i].GotForwarded?
    ensures ForwardedLate(trace + added) <==> ForwardedLate(trace) || (forwards && SawClose(trace))
  {
    var all := trace + added;
    hide SawClose;
    if i :| 0 <= i < |trace| && trace[i].GotForwarded? && SawClose(trace[..i]) {
      assert all[i] == trace[i] && all[..i] == trace[..i];
    }
    if forwards && SawClose(trace) {
      assert all[|trace|] == added[0] && all[..|trace|] == trace;
    }
    if i :| 0 <= i < |all| && all[i].GotForwarded? && SawClose(all[..i]) {
      if i < |trace| { assert all[i] == trace[i] && all[..i] == trace[..i]; } else { assert all[..|trace|] == trace; }
    }
  }

  // ---------------------------------------------------------------------
  // Before "open"
  // ---------------------------------------------------------------------

  lemma {:induction false} OpenedByInit(events: seq<Event>)
    requires events != []
    ensures OpenedBy(events) <==> OpenedBy(Init(events)) || Opens(Run(Init(events)), Last(events))
  {
    hide Opens, Run;
    var before, last := Init(events), |events| - 1;
    assert events[..last] == before && (OpensAt(events, last) <==> Opens(Run(before), Last(events)));
    forall k | 0 <= k < last ensures OpensAt(before, k) <==> OpensAt(events, k) {
      assert before[..k] == events[..k];
    }
  }

  lemma {:induction false} OpenedIffSeen(events: seq<Event>)
    ensures OpenedBy(events) <==> GotOpen in Run(events).client.events
  {
    if events != [] {
      OpenedIffSeen(Init(events));
      OpenedByInit(events);
      hide OpenedBy, Dispatches, Opens, Step;
      StepAdds(Run(Init(events)), Last(events));
      DispatchesOneKind(Run(Init(events)), Last(events));
    }
  }

  lemma {:induction false} EarlyAtInit(events: seq<Event>)
    requires events != []
    ensures (exists k :: 0 <= k < |events| && EarlyAt(events, k)) <==>
              (exists k :: 0 <= k < |Init(events)| && EarlyAt(Init(events), k))
              || (Forwards(Run(Init(events)), Last(events)) && !OpenedBy(Init(events)))
  {
    hide Forwards, Run, OpenedBy;
    var before, last := Init(events), |events| - 1;
    assert events[..last] == before;
    assert EarlyAt(events, last) <==> Forwards(Run(before), Last(events)) && !OpenedBy(before);
    forall k | 0 <= k < last ensures EarlyAt(before, k) <==> EarlyAt(events, k) {
      assert before[..k] == events[..k];
    }
  }

  /**
   The client gets a message of the original server before its "open" event exactly when
   one arrives on the open connection, unprevented, before "open" was dispatched.
   */
  lemma {:induction false} ForwardedEarlyIff(events: seq<Event>)
    ensures ForwardedEarly(Run(events).client.events) <==> exists k :: 0 <= k < |events| && EarlyAt(events, k)
  {
    if events != [] {
      var m, e := Run(Init(events)), Last(events);
      ForwardedEarlyIff(Init(events));
      EarlyAtInit(events);
      OpenedIffSeen(Init(events));
      StepAdds(m, e);
      DispatchesOneKind(m, e);
      hide ForwardedEarly, EarlyAt, OpenedBy, Dispatches, Forwards, Opens, Step;
      EarlyGrows(m.client.events, Dispatches(m, e), Forwards(m, e));
    }
  }

  lemma {:induction false} OpensWhileConnecting(events: seq<Event>, k: nat)
    requires MockedMode(events) && k < |events| && OpensAt(events, k)
    ensures Run(events[..k]).client.phase == Connecting
  {
    assert forall e :: e in events[..k] ==> e in events;
    RunOpened(events[..k]);
  }

  lemma {:induction false} PhaseOnlyRises(events: seq<Event>, j: nat, k: nat)
    requires j <= k <= |events|
    ensures Rank(Run(events[..j]).client.phase) <= Rank(Run(events[..k]).client.phase)
  {
    assert events[..j] + events[j..k] == events[..k];
    NeverReopens(events[..j], events[j..k]);
  }

  lemma {:induction false} ConnectingMeansUnopened(events: seq<Event>)
    requires MockedMode(events) && Run(events).client.phase == Connecting
    ensures GotOpen !in Run(events).client.events
  {
    RunOpened(events);
    hide Run;
    SeenOpens(Run(events).client.events);
  }

  lemma {:induction false} SeenOpens(trace: seq<ClientEvent>)
    ensures View(trace).opens == 0 <==> GotOpen !in trace
  {
    if trace != [] {
      SeenOpens(Init(trace));
      InitLast(trace);
    }
  }

  /** For a mocked client that is: while it is connecting, or when it will never open. */
  lemma {:induction false} UnopenedIff(events: seq<Event>, k: nat)
    requires MockedMode(events) && k <= |events|
    ensures !OpenedBy(events[..k]) <==> Run(events[..k]).client.phase == Connecting || !OpenedBy(events)
  {
    var before := events[..k];
    assert forall e :: e in before ==> e in events;
    hide Run, OpensAt;
    if Run(before).client.phase == Connecting {
      ConnectingMeansUnopened(before);
      OpenedIffSeen(before);
    }
    forall j | 0 <= j < k ensures OpensAt(before, j) <==> OpensAt(events, j) {
      SamePrefix(events, j, k);
    }
    if j :| k <= j < |events| && OpensAt(events, j) {
      OpensWhileConnecting(events, j);
      PhaseOnlyRises(events, k, j);
    }
  }

  lemma {:induction false} SamePrefix(events: seq<Event>, j: nat, k: nat)
    requires j < k <= |events|
    ensures OpensAt(events[..k], j) <==> OpensAt(events, j)
  {
    assert events[..k][..j] == events[..j];
  }

  // ---------------------------------------------------------------------
  // After "close"
  // ---------------------------------------------------------------------

  lemma {:induction false} SeenCloses(trace: seq<ClientEvent>)
    ensures View(trace).closes > 0 <==> SawClose(trace)
  {
    if trace != [] {
      var before, last := Init(trace), |trace| - 1;
      SeenCloses(before);
      hide View;
      assert forall i :: 0 <= i < last ==> before[i] == trace[i];
      assert Last(trace) == trace[last];
    }
  }

  lemma {:induction false} ClosedIffSeen(events: seq<Event>)
    ensures Run(events).client.phase == Closed <==> SawClose(Run(events).client.events)
  {
    RunKeeps(events);
    hide Run, SawClose;
    SeenCloses(Run(events).client.events);
  }

  lemma {:induction false} LateAtInit(events: seq<Event>)
    requires events != []
    ensures (exists k :: 0 <= k < |events| && LateAt(events, k)) <==>
              (exists k :: 0 <= k < |Init(events)| && LateAt(Init(events), k))
              || (Forwards(Run(Init(events)), Last(events)) && Run(Init(events)).client.phase == Closed)
  {
    hide Forwards, Run;
    var before, last := Init(events), |events| - 1;
    assert events[..last] == before;
    assert LateAt(events, last) <==> Forwards(Run(before), Last(events)) && Run(before).client.phase == Closed;
    forall k | 0 <= k < last ensures LateAt(before, k) <==> LateAt(events, k) {
      assert before[..k] == events[..k];
    }
  }

  /**
   The client gets one after its "close" event exactly when one arrives on the open
   connection, unprevented, while the client is closed.
   */
  lemma {:induction false} ForwardedLateIff(events: seq<Event>)
    ensures ForwardedLate(Run(events).client.events) <==> exists k :: 0 <= k < |events| && LateAt(events, k)
  {
    if events != [] {
      var m, e := Run(Init(events)), Last(events);
      ForwardedLateIff(Init(events));
      LateAtInit(events);
      ClosedIffSeen(Init(events));
      StepAdds(m, e);
      DispatchesOneKind(m, e);
      hide ForwardedLate, LateAt, SawClose, Dispatches, Forwards, Opens, Step;
      LateGrows(m.client.events, Dispatches(m, e), Forwards(m, e));
    }
  }

  /** Such a connection was made after the client's "close" event: the others are ending by then. */
  lemma {:induction false} LateMeansConnectedLate(events: seq<Event>, k: nat)
    requires k < |events| && LateAt(events, k)
    ensures !Run(events[..k]).server.inTime
  {
    CloseReachesTheServer(events[..k]);
  }

  // ---------------------------------------------------------------------
  // Both happen
  // ---------------------------------------------------------------------

  /** A message of the original server may reach the client before its "open" event. */
  lemma {:induction false} ForwardedBeforeOpen(data: Data)
    ensures var m := Run([Do(ServerConnect), RealOpens([]), RealMessage(data, [], false)]);
            m.client.phase == Connecting && m.client.events == [GotForwarded(data)]
  {
    RunSnoc([], Do(ServerConnect));
    RunSnoc([Do(ServerConnect)], RealOpens([]));
    RunSnoc([Do(ServerConnect), RealOpens([])], RealMessage(data, [], false));
    assert [Do(ServerConnect), RealOpens([])] + [RealMessage(data, [], false)] ==
           [Do(ServerConnect), RealOpens([]), RealMessage(data, [], false)];
    assert [Do(ServerConnect)] + [RealOpens([])] == [Do(ServerConnect), RealOpens([])];
    assert [] + [Do(ServerConnect)] == [Do(ServerConnect)];
  }

  /** And one of a connection made late may reach it after its "close" event. */
  lemma {:induction false} ForwardedAfterClose(code: nat, data: Data)
    ensures var late := [Do(ClientClose(code)), RunTask([], [], false), Do(ServerConnect), RealOpens([])];
            Run(late + [RealMessage(data, [], false)]).client.events == [GotClose(code), GotForwarded(data)]
  {
    var late := [Do(ClientClose(code)), RunTask([], [], false), Do(ServerConnect), RealOpens([])];
    LateConnectStaysOpen(code);
    RunSnoc(late, RealMessage(data, [], false));
  }
}
