/**
 When the client socket closes, what it is told, and what its closing leaves behind; and
 how it gets from connecting to connected.
 */
module SocketClosing {
  import opened Prelude
  import opened SocketMachine
  import opened SocketIsolation
  import opened SocketReads
  import opened SocketDelivery

  // ---------------------------------------------------------------------
  // What closes a client
  // ---------------------------------------------------------------------

  /** The consumer has an end-of-stream before it that it may still read. */
  predicate OwesEnd(c: Client) {
    c.endPushed && !c.endRead && !c.destroyed
  }

  /** An uncorked close of an attached connection that goes on to the client, which has read all it got. */
  predicate ForwardsClose(m: Machine, e: Event) {
    && e.Arrives? && e.read.RealClose? && Attached(m.link, e.conn) && !m.intake.corked
    && (m.client.destroyed ==> m.link.swapped) && !OwesEnd(m.client)
  }

  predicate ReplaysClose(m: Machine, e: Event) {
    e.Uncork? && m.intake.corked && !NoClose(ReplayedAs(m.client, m.intake.queue))
  }

  /** A destroyed client whose handle was never swapped closes by itself. */
  predicate ClosesItself(m: Machine, e: Event) {
    e.NativeClose? && m.client.destroyed && !m.link.swapped
  }

  lemma {:induction false} ArrivalCloses(m: Machine, e: ReadEvent)
    requires !m.client.closed
    ensures OnRead(m, e).client.closed <==>
              e.RealClose? && !m.intake.corked && (m.client.destroyed ==> m.link.swapped) && !OwesEnd(m.client)
    ensures OnRead(m, e).client.closed ==>
              OnRead(m, e).intake.delivered == m.intake.delivered + [GotClose(e.hadError, Forwarded)]
  {
  }

  /** Of an open client, whatever its state: exactly these close it. */
  lemma {:induction false} ClosesIff(m: Machine, e: Event)
    requires !m.client.closed
    ensures Step(m, e).client.closed <==>
              ForwardsClose(m, e) || ReplaysClose(m, e) || (e.RunTick? && m.intake.ticks != []) || ClosesItself(m, e)
  {
    if OffStage(e) {
      OffStageKeepsIntake(m, e);
    } else {
      hide OnRead, Replay, NoClose;
      match e
      case Uncork => if m.intake.corked { ReplayIs(Opened(m), m.intake.queue); }
      case Arrives(_, read) => ArrivalCloses(m, read);
      case _ =>
    }
  }

  /** The "close" the client gets, but for those of a replay. */
  function CloseTold(m: Machine, e: Event): ClientEvent
    requires ForwardsClose(m, e) || ClosesItself(m, e) || (e.RunTick? && m.intake.ticks != [])
  {
    if ForwardsClose(m, e) then GotClose(e.read.hadError, Forwarded)
    else if ClosesItself(m, e) then GotClose(false, Native)
    else if m.intake.ticks[0] == ForceClose then GotClose(true, Forced)
    else GotClose(m.intake.ticks[0].hadError, Deferred)
  }

  lemma {:induction false} ClosedOnce(m: Machine, e: Event)
    requires !m.client.closed && Step(m, e).client.closed && !e.Uncork?
    ensures ForwardsClose(m, e) || ClosesItself(m, e) || (e.RunTick? && m.intake.ticks != [])
    ensures Step(m, e).intake.delivered == m.intake.delivered + [CloseTold(m, e)]
  {
    ClosesIff(m, e);
    hide OnRead;
    if e.Arrives? { ArrivalCloses(m, e.read); }
  }

  // ---------------------------------------------------------------------
  // Closing again
  // ---------------------------------------------------------------------

  lemma {:induction false} SlipIsClose(c: Client, queue: seq<ReadEvent>)
    ensures NoClose(ReplayedAs(c, queue)) <==> forall k :: 0 <= k < |queue| ==> !Slips(c, queue, k)
  {
    if queue != [] {
      var before := Init(queue);
      SlipIsClose(c, before);
      NoCloseConcat(ReplayedAs(c, before), LastReplayed(c, queue));
      LastIsClose(c, queue);
      hide NoClose, ReplayedAs, LastReplayed;
      assert queue[..|queue| - 1] == before;
      assert Slips(c, queue, |queue| - 1) <==> Last(queue).RealClose? && !EndUnread(AfterPushes(c, before));
      forall k | 0 <= k < |before| ensures Slips(c, before, k) <==> Slips(c, queue, k) {
        assert before[..k] == queue[..k];
      }
    }
  }

  lemma {:induction false} EmitCounts(m: Machine, hadError: bool, origin: Origin)
    ensures CloseCount(EmitClose(m, hadError, origin).intake.delivered) == CloseCount(m.intake.delivered) + 1
  {
    InitOfSnoc(m.intake.delivered, GotClose(hadError, origin));
  }

  lemma {:induction false} ArrivalIsQuiet(m: Machine, e: ReadEvent)
    requires m.client.closed
    ensures CloseCount(OnRead(m, e).intake.delivered) == CloseCount(m.intake.delivered)
  {
    if !e.RealClose? { InitOfSnoc(m.intake.delivered, if e.RealEnd? then GotEnd else GotData(e.chunk)); }
  }

  lemma {:induction false} TickIsForced(m: Machine)
    requires m.client.closed
    ensures CloseCount(DoTick(m).intake.delivered) ==
              CloseCount(m.intake.delivered) + (if m.intake.ticks != [] && m.intake.ticks[0] == ForceClose then 1 else 0)
  {
    if m.intake.ticks != [] { EmitCounts(m.(intake := m.intake.(ticks := m.intake.ticks[1..])), true, Forced); }
  }

  lemma {:induction false} QuietOnClosed(m: Machine, e: Event)
    requires m.client.closed && !e.Uncork?
    ensures CloseCount(Step(m, e).intake.delivered) > CloseCount(m.intake.delivered) <==>
              (e.RunTick? && m.intake.ticks != [] && m.intake.ticks[0] == ForceClose) || ClosesItself(m, e)
  {
    if OffStage(e) {
      OffStageKeepsIntake(m, e);
    } else {
      hide CloseCount, OnRead, DoTick, EmitClose;
      match e
      case Arrives(_, read) => ArrivalIsQuiet(m, read);
      case RunTick => TickIsForced(m);
      case NativeClose => EmitCounts(m, false, Native);
      case _ =>
    }
  }

  /**
   A closed client is told of a close again exactly by a replay in which a close slips through,
   by the forced close of a failed connection, or by its own machinery.
   */
  lemma {:induction false} ClosesAgainIff(m: Machine, e: Event)
    requires m.client.closed
    ensures CloseCount(Step(m, e).intake.delivered) > CloseCount(m.intake.delivered) <==>
              || ReplaysClose(m, e) || ClosesItself(m, e)
              || (e.RunTick? && m.intake.ticks != [] && m.intake.ticks[0] == ForceClose)
  {
    if e.Uncork? {
      if m.intake.corked {
        ReplayClosesAgainIff(m);
        SlipIsClose(m.client, m.intake.queue);
        hide Step, NoClose, Slips, CloseCount;
      }
    } else {
      QuietOnClosed(m, e);
    }
  }

  // ---------------------------------------------------------------------
  // A connection that fails
  // ---------------------------------------------------------------------

  function WithError(waiting: seq<bool>): seq<Tick> {
    seq(|waiting|, _ => DeliverClose(true))
  }

  /** A failure destroys the client, lets every close waiting for the end go, with an error, and forces one once swapped. */
  lemma {:induction false} FailureIsTold(m: Machine, c: nat)
    requires Attached(m.link, c) && !m.client.destroyed
    ensures var m', waiting := Step(m, Fails(c)), m.intake.waiting;
            && m'.client == m.client.(destroyed := true) && m'.intake.waiting == []
            && m'.intake.ticks == m.intake.ticks + WithError(waiting) + (if m.link.swapped then [ForceClose] else [])
  {
    ScheduledAreCloses(m.intake.waiting, Some(true));
    assert Scheduled(m.intake.waiting, Some(true)) == WithError(m.intake.waiting);
    var ticks := m.intake.ticks + WithError(m.intake.waiting);
    assert ticks + [] == ticks;
  }

  /** One more failure of a destroyed client, or of a connection nobody listens to, changes nothing. */
  lemma FailureIsIgnored(m: Machine, c: nat)
    requires !Attached(m.link, c) || m.client.destroyed
    ensures Step(m, Fails(c)) == m
  {
  }

  /** Over every run, a connection that drops is known to be dead. */
  lemma {:induction false} DropIsSeen(original: Target, events: seq<Event>, c: nat)
    requires c < |Run(Start(original), events).link.conns|
    ensures var m, m' := Run(Start(original), events), Run(Start(original), events + [Dropped(c)]);
            m'.link == m.link.(conns := m.link.conns[c := m.link.conns[c].(destroyed := true)])
  {
    InitOfSnoc(events, Dropped(c));
  }

  /** Of a connection that failed after its handle was swapped in, the client closes at the next tick. */
  lemma {:induction false} FailureCloses(original: Target, events: seq<Event>, c: nat)
    requires var m := Run(Start(original), events); !m.client.closed && Attached(m.link, c) && !m.client.destroyed
    ensures var m := Run(Start(original), events);
            Run(Start(original), events + [Fails(c)] + [RunTick]).client.closed <==>
              m.link.swapped || m.intake.waiting != [] || m.intake.ticks != []
  {
    var m := Run(Start(original), events);
    InitOfSnoc(events, Fails(c));
    InitOfSnoc(events + [Fails(c)], RunTick);
    FailureIsTold(m, c);
    ClosesIff(m, Fails(c));
    ClosesIff(Step(m, Fails(c)), RunTick);
  }

  /** A client that reads on, with a connection that closed, and a later one in its place that fails. */
  function FailedWhileWaiting(original: Target): Machine {
    var served := Step(Step(Start(original), Perform(Pass(None))), Connected(0));
    var waiting := Step(Step(served, Arrives(0, RealEnd)), Arrives(0, RealClose(false)));
    var replaced := Step(Step(Step(waiting, Dropped(0)), Perform(Reset(None))), Perform(Pass(None)));
    Step(replaced, Fails(1))
  }

  lemma {:induction false} ServedClient(original: Target)
    ensures var m := Step(Step(Start(original), Perform(Pass(None))), Connected(0));
            && m.link == Link(original, None, [Conn(original, false, true)], Some(0), true, Some(0))
            && m.client == Client(false, false, false, false, false) && m.intake == Start(original).intake
            && m.ctl == Controller(Passthrough, [], false, false)
  {
  }

  lemma {:induction false} WaitingClient(m: Machine)
    requires Attached(m.link, 0) && m.client == Client(false, false, false, false, false)
    requires m.intake == Reads(false, [], [], [], [], [], [])
    ensures var m' := Step(Step(m, Arrives(0, RealEnd)), Arrives(0, RealClose(false)));
            && m'.client == m.client.(endPushed := true) && m'.link == m.link && m'.ctl == m.ctl
            && m'.intake.delivered == [GotEnd] && m'.intake.waiting == [false] && m'.intake.ticks == []
  {
    var m1 := Step(m, Arrives(0, RealEnd));
    assert m1.client.endPushed && m1.intake.delivered == [GotEnd] && m1.intake.waiting == [];
  }

  lemma {:induction false} FailedHolds(original: Target)
    ensures var m := FailedWhileWaiting(original);
            && !m.client.closed && m.intake.delivered == [GotEnd]
            && m.intake.ticks == [DeliverClose(true), ForceClose]
  {
    ServedClient(original);
    var served := Step(Step(Start(original), Perform(Pass(None))), Connected(0));
    WaitingClient(served);
    var waiting := Step(Step(served, Arrives(0, RealEnd)), Arrives(0, RealClose(false)));
    hide OnRead, OnConnect, Start;
    var replaced := Step(Step(Step(waiting, Dropped(0)), Perform(Reset(None))), Perform(Pass(None)));
    assert replaced.intake == waiting.intake && replaced.client == waiting.client;
    assert replaced.link.conns == [Conn(original, true, true), Conn(original, false, true)] && replaced.link.swapped;
    FailureIsTold(replaced, 1);
  }

  /** It happens: the close that waited is let go, and the forced one comes on top of it. */
  lemma {:induction false} ForcedCloseComesSecond(original: Target)
    ensures Step(Step(FailedWhileWaiting(original), RunTick), RunTick).intake.delivered ==
            [GotEnd, GotClose(true, Deferred), GotClose(true, Forced)]
  {
    FailedHolds(original);
    hide FailedWhileWaiting;
    var m := FailedWhileWaiting(original);
    var m1 := Step(m, RunTick);
    assert m1.intake.delivered == [GotEnd] + [GotClose(true, Deferred)] && m1.intake.ticks == [ForceClose];
  }

  // ---------------------------------------------------------------------
  // What a closed client leaves behind
  // ---------------------------------------------------------------------

  /** Every connection but the current one has been dropped or destroyed. */
  predicate OnlyCurrentLives(l: Link) {
    && (l.current.Some? ==> l.current.value < |l.conns|)
    && forall c :: 0 <= c < |l.conns| ==> l.conns[c].destroyed || l.current == Some(c)
  }

  lemma ActKeepsLives(m: Machine, a: Action)
    requires OnlyCurrentLives(m.link)
    ensures OnlyCurrentLives(Act(m, a).link)
  {
  }

  lemma {:induction false} ActAllKeepsLives(m: Machine, acts: seq<Action>)
    requires OnlyCurrentLives(m.link)
    ensures OnlyCurrentLives(ActAll(m, acts).link)
  {
    if acts != [] {
      ActAllKeepsLives(m, Init(acts));
      ActKeepsLives(ActAll(m, Init(acts)), Last(acts));
    }
  }

  lemma {:induction false} WriteKeepsLives(m: Machine, e: Event)
    requires e.ClientWrite? && OnlyCurrentLives(m.link)
    ensures OnlyCurrentLives(Step(m, e).link)
  {
    var w, m1 := Write(WriteCount(m), e.data), AtPush(m, e.data, e.callback);
    ActAllKeepsLives(m1, e.acts);
    var m2 := Push(Buffer(m, e.data, e.callback), w, e.listening, e.acts);
    assert m2.link == m1.link || m2.link == ActAll(m1, e.acts).link;
    hide ActAll, Push, Buffer, OnlyCurrentLives;
    assert Step(m, e).link == m2.link;
  }

  lemma CloseKeepsLives(l: Link)
    requires OnlyCurrentLives(l)
    ensures OnlyCurrentLives(if l.current.None? then l else Destroy(l, l.current.value).(current := None))
  {
  }

  lemma {:induction false} ReplayKeepsLives(m: Machine, events: seq<ReadEvent>)
    requires OnlyCurrentLives(m.link)
    ensures OnlyCurrentLives(Replay(m, events).link)
  {
    if events != [] {
      ReplayKeepsLives(m, Init(events));
      CloseKeepsLives(Replay(m, Init(events)).link);
      hide OnlyCurrentLives;
    }
  }

  lemma {:induction false} StepKeepsLives(m: Machine, e: Event)
    requires OnlyCurrentLives(m.link)
    ensures OnlyCurrentLives(Step(m, e).link)
  {
    match e
    case ClientWrite(_, _, _, _) => WriteKeepsLives(m, e);
    case DeferredPush(acts) => if m.log.owed != [] { ActAllKeepsLives(ShowOwed(m), acts); }
    case Perform(act) => ActKeepsLives(m, act);
    case Connected(_) =>
    case Dropped(_) =>
    case Uncork => if m.intake.corked { ReplayKeepsLives(Opened(m), m.intake.queue); }
    case _ =>
      hide OnlyCurrentLives;
      CloseKeepsLives(m.link);
  }

  lemma {:induction false} RunKeepsLives(original: Target, events: seq<Event>)
    ensures OnlyCurrentLives(Run(Start(original), events).link)
  {
    if events != [] {
      RunKeepsLives(original, Init(events));
      StepKeepsLives(Run(Start(original), Init(events)), Last(events));
    }
  }

  /** Nothing is held for a closed client. */
  predicate CleanedUp(m: Machine) {
    m.link.current.None? && m.ctl.buffered == [] && !m.intake.corked && m.intake.queue == []
  }

  lemma {:induction false} ReplayCleansUp(m: Machine, events: seq<ReadEvent>)
    requires !m.intake.corked && m.intake.queue == [] && (m.client.closed ==> CleanedUp(m))
    ensures var m' := Replay(m, events);
            !m'.intake.corked && m'.intake.queue == [] && (m'.client.closed ==> CleanedUp(m'))
  {
    if events != [] { ReplayCleansUp(m, Init(events)); }
  }

  lemma {:induction false} StepCleansUp(m: Machine, e: Event)
    requires !m.client.closed && Step(m, e).client.closed
    ensures CleanedUp(Step(m, e))
  {
    ClosesIff(m, e);
    hide ForwardsClose, ReplaysClose, Replay, HandleWrite, RunDeferredPush, Act, OnConnect, OnFail, DoDestroy;
    if e.Uncork? { ReplayCleansUp(Opened(m), m.intake.queue); }
  }

  /** Over every run, the event that closes the client leaves no connection alive, and nothing buffered or corked. */
  lemma {:induction false} ClosingCleansUp(original: Target, events: seq<Event>, e: Event)
    requires !Run(Start(original), events).client.closed
    requires Run(Start(original), events + [e]).client.closed
    ensures var m := Run(Start(original), events + [e]);
            CleanedUp(m) && forall c :: 0 <= c < |m.link.conns| ==> m.link.conns[c].destroyed
  {
    InitOfSnoc(events, e);
    StepCleansUp(Run(Start(original), events), e);
    RunKeepsLives(original, events + [e]);
  }

  // ---------------------------------------------------------------------
  // Connecting
  // ---------------------------------------------------------------------

  /** The client connects: by a mock, by the emulation of an undecided write-less client, or with its current connection. */
  predicate Connects(m: Machine, e: Event) {
    || e.MockConnected?
    || (e.EmulateConnect? && m.ctl.readyState == Pending && m.ctl.buffered == [])
    || (e.Connected? && Attached(m.link, e.conn) && m.link.current.Some? && !m.client.destroyed)
  }

  predicate ConnectsAt(original: Target, events: seq<Event>, k: nat)
    requires k < |events|
  {
    Connects(Run(Start(original), events[..k]), events[k])
  }

  lemma {:induction false} ReplayKeepsConnecting(m: Machine, events: seq<ReadEvent>)
    ensures Replay(m, events).client.connecting == m.client.connecting
  {
    if events != [] { ReplayKeepsConnecting(m, Init(events)); }
  }

  lemma {:induction false} StepConnects(m: Machine, e: Event)
    ensures Step(m, e).client.connecting <==> m.client.connecting && !Connects(m, e)
  {
    match e
    case ClientWrite(data, callback, listening, acts) => WriteKeepsIntake(m, data, callback, listening, acts);
    case DeferredPush(acts) => if m.log.owed != [] { ActAllKeepsIntake(ShowOwed(m), acts); }
    case Uncork => if m.intake.corked { ReplayKeepsConnecting(Opened(m), m.intake.queue); }
    case _ =>
  }

  lemma {:induction false} ConnectsAtInit(original: Target, events: seq<Event>)
    requires events != []
    ensures (exists k :: 0 <= k < |events| && ConnectsAt(original, events, k)) <==>
              (exists k :: 0 <= k < |Init(events)| && ConnectsAt(original, Init(events), k))
              || Connects(Run(Start(original), Init(events)), Last(events))
  {
    hide Run, Connects;
    var before, last := Init(events), |events| - 1;
    assert events[..last] == before && Last(events) == events[last];
    assert ConnectsAt(original, events, last) <==> Connects(Run(Start(original), before), Last(events));
    forall k | 0 <= k < last ensures ConnectsAt(original, before, k) <==> ConnectsAt(original, events, k) {
      assert before[..k] == events[..k];
    }
  }

  /** Over every run, the client is connected exactly when something connected it. */
  lemma {:induction false} ConnectedIff(original: Target, events: seq<Event>)
    ensures !Run(Start(original), events).client.connecting <==>
              exists k :: 0 <= k < |events| && ConnectsAt(original, events, k)
  {
    if events != [] {
      ConnectedIff(original, Init(events));
      StepConnects(Run(Start(original), Init(events)), Last(events));
      hide Step, ConnectsAt, Connects;
      ConnectsAtInit(original, events);
    }
  }

  /** The connection a destroyed client no longer wants is destroyed as soon as it connects. */
  lemma {:induction false} ConnectedTooLate(original: Target, events: seq<Event>, c: nat)
    requires var m := Run(Start(original), events); Attached(m.link, c) && m.link.current == Some(c) && m.client.destroyed
    ensures var m, m' := Run(Start(original), events), Run(Start(original), events + [Connected(c)]);
            m'.link == m.link.(conns := m.link.conns[c := m.link.conns[c].(destroyed := true)]) && m'.client == m.client
  {
    InitOfSnoc(events, Connected(c));
  }

  /**
   A claim drops the buffer unless the client is destroyed or connected in earnest; one whose
   connect was emulated is connected in earnest only by the claim.
   */
  lemma {:induction false} ClaimDropsBufferIff(original: Target, events: seq<Event>)
    requires var m := Run(Start(original), events); m.ctl.readyState == Pending && m.ctl.buffered != []
    ensures var m, m' := Run(Start(original), events), Run(Start(original), events + [Perform(Claim)]);
            && m'.ctl.readyState == Claimed
            && (m'.ctl.buffered == [] <==> !m.client.destroyed && (m.client.connecting || m.ctl.connectEmulated))
            && (m'.ctl.buffered != [] ==> m'.ctl.buffered == m.ctl.buffered)
  {
    InitOfSnoc(events, Perform(Claim));
  }

  /** The connect was emulated, and no exchange has ended since. */
  predicate Emulated(original: Target, events: seq<Event>) {
    events != [] &&
    var m, e := Run(Start(original), Init(events)), Last(events);
    || (e.EmulateConnect? && m.ctl.readyState == Pending && m.client.connecting && m.ctl.buffered == [])
    || (Emulated(original, Init(events)) && |Step(m, e).log.past| == |m.log.past|)
  }

  lemma {:induction false} ActAllKeepsEmulation(m: Machine, acts: seq<Action>)
    ensures var m' := ActAll(m, acts);
            |m'.log.past| >= |m.log.past| && (m'.ctl.connectEmulated <==> m.ctl.connectEmulated && |m'.log.past| == |m.log.past|)
  {
    if acts != [] { ActAllKeepsEmulation(m, Init(acts)); }
  }

  lemma {:induction false} WriteKeepsEmulation(m: Machine, e: Event)
    requires e.ClientWrite?
    ensures var m' := Step(m, e);
            |m'.log.past| >= |m.log.past| && (m'.ctl.connectEmulated <==> m.ctl.connectEmulated && |m'.log.past| == |m.log.past|)
  {
    var w, m1 := Write(WriteCount(m), e.data), AtPush(m, e.data, e.callback);
    ActAllKeepsEmulation(m1, e.acts);
    hide ActAll;
    var m2 := Push(Buffer(m, e.data, e.callback), w, e.listening, e.acts);
    assert |m1.log.past| >= |m.log.past| && (m1.ctl.connectEmulated <==> m.ctl.connectEmulated && |m1.log.past| == |m.log.past|);
    assert (m2.ctl.connectEmulated == m1.ctl.connectEmulated && m2.log.past == m1.log.past) || m2 == ActAll(m1, e.acts);
    hide Push, Buffer, AtPush;
    assert Step(m, e).log.past == m2.log.past && Step(m, e).ctl.connectEmulated == m2.ctl.connectEmulated;
  }

  lemma {:induction false} ReplayKeepsEmulation(m: Machine, events: seq<ReadEvent>)
    ensures Replay(m, events).ctl.connectEmulated == m.ctl.connectEmulated
  {
    if events != [] { ReplayKeepsEmulation(m, Init(events)); }
  }

  lemma {:induction false} ReadKeepsEmulation(m: Machine, e: Event)
    requires ReadsOnly(e)
    ensures Step(m, e).ctl.connectEmulated == m.ctl.connectEmulated
  {
    if e.Uncork? && m.intake.corked { ReplayKeepsEmulation(Opened(m), m.intake.queue); }
  }

  lemma {:induction false} StepKeepsEmulation(m: Machine, e: Event)
    requires !e.EmulateConnect?
    ensures var m' := Step(m, e);
            m'.ctl.connectEmulated <==> m.ctl.connectEmulated && |m'.log.past| == |m.log.past|
  {
    if ReadsOnly(e) {
      hide Step;
      ReadStepKeepsWriteSide(m, e);
      ReadKeepsEmulation(m, e);
    } else {
      match e
      case ClientWrite(_, _, _, _) =>
        WriteKeepsEmulation(m, e);
        hide Step;
      case DeferredPush(acts) => if m.log.owed != [] { ActAllKeepsEmulation(ShowOwed(m), acts); }
      case Perform(_) =>
      case Connected(_) =>
      case Dropped(_) =>
    }
  }

  /** Over every run, the emulation is remembered until the exchange is over. */
  lemma {:induction false} EmulatedIff(original: Target, events: seq<Event>)
    ensures Run(Start(original), events).ctl.connectEmulated <==> Emulated(original, events)
  {
    if events != [] {
      var m, e := Run(Start(original), Init(events)), Last(events);
      EmulatedIff(original, Init(events));
      if !e.EmulateConnect? {
        hide Step;
        StepKeepsEmulation(m, e);
      }
    }
  }
}
