/**
 What the client reads of a passed-through connection: corking only delays it,
 "close" never overtakes it, and a deferred "close" comes once, after the end
 was read.
 */
module SocketReads {
  import opened Prelude
  import opened SocketMachine
  import opened SocketIsolation

  /** Data and end events as the client gets them; a close is not part of the stream. */
  function AsClient(events: seq<ReadEvent>): seq<ClientEvent> {
    if events == [] then [] else
      AsClient(Init(events)) + (match Last(events)
                                case RealData(chunk) => [GotData(chunk)]
                                case RealEnd => [GotEnd]
                                case RealClose(_) => [])
  }

  predicate NoClose(events: seq<ClientEvent>) {
    forall i :: 0 <= i < |events| ==> !events[i].GotClose?
  }

  /** Some real close arrived such that everything that arrived before it is with the client. */
  predicate CloseReady(arrived: seq<ReadEvent>, delivered: seq<ClientEvent>) {
    arrived != [] &&
    ((Last(arrived).RealClose? && AsClient(Init(arrived)) <= delivered) || CloseReady(Init(arrived), delivered))
  }

  predicate Defers(r: Reads) {
    r.waiting != [] || exists i :: 0 <= i < |r.ticks| && r.ticks[i].DeliverClose?
  }

  /** The stream so far: these events went on to the client, and a close put off was due. */
  predicate InStep(r: Reads, passed: seq<ReadEvent>) {
    && NoClose(r.delivered)
    && r.delivered == AsClient(passed)
    && (Defers(r) ==> CloseReady(passed, r.delivered))
  }

  /** The read side until the client socket closes. */
  predicate Flowing(m: Machine) {
    var r := m.intake;
    && !m.client.closed
    && (!r.corked ==> r.queue == [])
    && r.arrived == r.passed + r.queue
    && InStep(r, r.passed)
  }

  lemma {:induction false} AsClientConcat(a: seq<ReadEvent>, b: seq<ReadEvent>)
    ensures AsClient(a + b) == AsClient(a) + AsClient(b)
  {
    if b == [] {
      assert a + b == a;
    } else {
      AsClientConcat(a, Init(b));
      assert Init(a + b) == a + Init(b) && Last(a + b) == Last(b);
    }
  }

  lemma {:induction false} CloseReadyGrows(arrived: seq<ReadEvent>, more: seq<ReadEvent>,
                                           delivered: seq<ClientEvent>, delivered': seq<ClientEvent>)
    requires CloseReady(arrived, delivered) && delivered <= delivered'
    ensures CloseReady(arrived + more, delivered')
  {
    if more == [] {
      assert arrived + more == arrived;
      if !(Last(arrived).RealClose? && AsClient(Init(arrived)) <= delivered) {
        CloseReadyGrows(Init(arrived), [], delivered, delivered');
        assert Init(arrived) + [] == Init(arrived);
      }
    } else {
      CloseReadyGrows(arrived, Init(more), delivered, delivered');
      assert Init(arrived + more) == arrived + Init(more);
    }
  }

  /** A close that arrives right after everything else was delivered is due. */
  lemma CloseIsDue(passed: seq<ReadEvent>, e: ReadEvent)
    requires e.RealClose?
    ensures AsClient(passed + [e]) == AsClient(passed) && CloseReady(passed + [e], AsClient(passed))
  {
    InitOfSnoc(passed, e);
    assert AsClient(passed) + [] == AsClient(passed);
  }

  // ---------------------------------------------------------------------
  // Handing one event on
  // ---------------------------------------------------------------------

  /** What the client got before its first close. */
  function UpToClose(delivered: seq<ClientEvent>): seq<ClientEvent> {
    if delivered == [] || delivered[0].GotClose? then [] else [delivered[0]] + UpToClose(delivered[1..])
  }

  lemma {:induction false} UpToCloseIs(before: seq<ClientEvent>, close: ClientEvent, rest: seq<ClientEvent>)
    requires NoClose(before) && close.GotClose?
    ensures UpToClose(before + [close] + rest) == before
  {
    if before != [] {
      assert (before + [close] + rest)[1..] == before[1..] + [close] + rest;
      UpToCloseIs(before[1..], close, rest);
    }
  }

  predicate FromPeer(e: ClientEvent) {
    e.GotClose? && (e.origin.Forwarded? || e.origin.Replayed? || e.origin.Deferred?)
  }

  /** The client was closed, and the peer's close came after all that arrived before it. */
  predicate ClosedInOrder(delivered: seq<ClientEvent>, arrived: seq<ReadEvent>) {
    var before := UpToClose(delivered);
    && |before| < |delivered|
    && (FromPeer(delivered[|before|]) ==> CloseReady(arrived, before))
  }

  lemma OneClose(delivered: seq<ClientEvent>, close: ClientEvent, arrived: seq<ReadEvent>)
    requires NoClose(delivered) && close.GotClose? && (FromPeer(close) ==> CloseReady(arrived, delivered))
    ensures ClosedInOrder(delivered + [close], arrived)
  {
    UpToCloseIs(delivered, close, []);
    assert delivered + [close] + [] == delivered + [close];
  }

  lemma {:induction false} ClosedInOrderGrows(delivered: seq<ClientEvent>, x: ClientEvent, arrived: seq<ReadEvent>, e: ReadEvent)
    requires ClosedInOrder(delivered, arrived)
    ensures ClosedInOrder(delivered + [x], arrived + [e]) && ClosedInOrder(delivered, arrived + [e])
  {
    UpToCloseGrows(delivered, x);
    var before := UpToClose(delivered);
    assert (delivered + [x])[|before|] == delivered[|before|];
    if FromPeer(delivered[|before|]) { CloseReadyGrows(arrived, [e], before, before); }
  }

  lemma {:induction false} UpToCloseGrows(delivered: seq<ClientEvent>, x: ClientEvent)
    requires |UpToClose(delivered)| < |delivered|
    ensures UpToClose(delivered + [x]) == UpToClose(delivered)
  {
    if !delivered[0].GotClose? {
      assert (delivered + [x])[1..] == delivered[1..] + [x];
      UpToCloseGrows(delivered[1..], x);
    }
  }

  lemma PushInStep(m: Machine, passed: seq<ReadEvent>, e: ReadEvent)
    requires InStep(m.intake, passed) && !e.RealClose?
    ensures InStep(PushToClient(m, e).intake, passed + [e])
  {
    var r, r' := m.intake, PushToClient(m, e).intake;
    InitOfSnoc(passed, e);
    if Defers(r) { CloseReadyGrows(passed, [e], r.delivered, r'.delivered); }
  }

  lemma CloseInStep(m: Machine, passed: seq<ReadEvent>, e: ReadEvent, origin: Origin)
    requires InStep(m.intake, passed) && e.RealClose? && !m.client.closed
    ensures var m' := EmitClientClose(m, e.hadError, origin);
            if m'.client.closed then ClosedInOrder(m'.intake.delivered, passed + [e])
            else InStep(m'.intake, passed + [e])
  {
    CloseIsDue(passed, e);
    OneClose(m.intake.delivered, GotClose(e.hadError, origin), passed + [e]);
  }

  /** Replaying keeps the stream in step, up to the close that ends it. */
  lemma {:induction false} ReplayInStep(m: Machine, passed: seq<ReadEvent>, events: seq<ReadEvent>)
    requires InStep(m.intake, passed) && !m.client.closed
    ensures var m' := Replay(m, events);
            if m'.client.closed then ClosedInOrder(m'.intake.delivered, passed + events)
            else InStep(m'.intake, passed + events)
  {
    if events == [] {
      assert passed + events == passed;
    } else {
      var us, e := Init(events), Last(events);
      var mid := Replay(m, us);
      ReplayInStep(m, passed, us);
      assert passed + events == (passed + us) + [e];
      if mid.client.closed {
        ReplayAfterClose(mid, passed + us, e);
      } else if e.RealClose? {
        CloseInStep(mid, passed + us, e, Replayed);
      } else {
        PushInStep(mid, passed + us, e);
      }
    }
  }

  lemma ReplayAfterClose(m: Machine, arrived: seq<ReadEvent>, e: ReadEvent)
    requires m.client.closed && ClosedInOrder(m.intake.delivered, arrived)
    ensures ReplayOne(m, e).client.closed && ClosedInOrder(ReplayOne(m, e).intake.delivered, arrived + [e])
  {
    var d, d' := m.intake.delivered, ReplayOne(m, e).intake.delivered;
    if d' == d {
      ClosedInOrderGrows(d, GotEnd, arrived, e);
    } else {
      assert d' == d + [Last(d')];
      ClosedInOrderGrows(d, Last(d'), arrived, e);
    }
  }

  lemma {:induction false} ReplayKeepsCork(m: Machine, events: seq<ReadEvent>)
    requires !m.intake.corked && m.intake.queue == []
    ensures var r, r' := m.intake, Replay(m, events).intake;
            !r'.corked && r'.queue == [] && r'.arrived == r.arrived && r'.passed == r.passed
  {
    if events != [] {
      ReplayKeepsCork(m, Init(events));
    }
  }

  // ---------------------------------------------------------------------
  // Every step
  // ---------------------------------------------------------------------

  lemma {:induction false} ActAllKeepsIntake(m: Machine, acts: seq<Action>)
    ensures ActAll(m, acts).intake == m.intake && ActAll(m, acts).client == m.client
  {
    if acts != [] {
      ActAllKeepsIntake(m, Init(acts));
    }
  }

  lemma WriteKeepsIntake(m: Machine, data: Data, callback: bool, listening: bool, acts: seq<Action>)
    ensures var m' := HandleWrite(m, data, callback, listening, acts); m'.intake == m.intake && m'.client == m.client
  {
    ActAllKeepsIntake(AtPush(m, data, callback), acts);
  }

  /** Events that neither deliver anything to the client nor close it. */
  predicate OffStage(e: Event) {
    e.ClientWrite? || e.DeferredPush? || e.Perform? || e.MockConnected? || e.EmulateConnect? || e.Connected? || e.Dropped?
  }

  lemma {:induction false} OffStageKeepsIntake(m: Machine, e: Event)
    requires OffStage(e)
    ensures Step(m, e).intake == m.intake
    ensures Step(m, e).client == m.client.(connecting := Step(m, e).client.connecting)
  {
    match e
    case ClientWrite(data, callback, listening, acts) => WriteKeepsIntake(m, data, callback, listening, acts);
    case DeferredPush(acts) => if m.log.owed != [] { ActAllKeepsIntake(ShowOwed(m), acts); }
    case _ =>
  }

  lemma ArrivalFlows(m: Machine, e: ReadEvent)
    requires Flowing(m)
    ensures var m' := OnRead(m, e);
            if m'.client.closed then ClosedInOrder(m'.intake.delivered, m'.intake.arrived) else Flowing(m')
  {
    var r := m.intake;
    if r.corked {
      assert (r.passed + r.queue) + [e] == r.passed + (r.queue + [e]);
    } else {
      var m1 := m.(intake := r.(arrived := r.arrived + [e], passed := r.passed + [e]));
      assert r.passed + [] == r.passed;
      if e.RealClose? {
        CloseIsDue(r.passed, e);
        if Defers(r) { CloseReadyGrows(r.passed, [e], r.delivered, r.delivered); }
        CloseInStep(m1, r.passed, e, Forwarded);
      } else {
        PushInStep(m1, r.passed, e);
      }
    }
  }

  lemma UncorkFlows(m: Machine)
    requires Flowing(m) && m.intake.corked
    ensures var m' := DoUncork(m);
            if m'.client.closed then ClosedInOrder(m'.intake.delivered, m'.intake.arrived) else Flowing(m')
  {
    var r := m.intake;
    ReplayKeepsCork(Opened(m), r.queue);
    ReplayInStep(Opened(m), r.passed, r.queue);
  }

  lemma {:induction false} ScheduledAreCloses(waiting: seq<bool>, override: Option<bool>)
    ensures |Scheduled(waiting, override)| == |waiting|
    ensures forall i :: 0 <= i < |waiting| ==>
              Scheduled(waiting, override)[i] == DeliverClose(if override.Some? then override.value else waiting[i])
  {
    if waiting != [] {
      ScheduledAreCloses(Init(waiting), override);
    }
  }

  /** Nothing new arrived, was delivered or was put off. */
  lemma StillFlows(m: Machine, m': Machine)
    requires Flowing(m) && !m'.client.closed
    requires var r, r' := m.intake, m'.intake;
             r'.delivered == r.delivered && r'.arrived == r.arrived && r'.passed == r.passed && r'.queue == r.queue &&
             (r.corked ==> r'.corked) && (Defers(r') ==> Defers(r))
    ensures Flowing(m')
  {
  }

  lemma ReleaseDefers(r: Reads, override: Option<bool>, forced: seq<Tick>)
    requires forall i :: 0 <= i < |forced| ==> forced[i].ForceClose?
    requires Defers(Released(r, override, forced))
    ensures Defers(r)
  {
    ScheduledAreCloses(r.waiting, override);
    var ticks := r.ticks + Scheduled(r.waiting, override) + forced;
    var i :| 0 <= i < |ticks| && ticks[i].DeliverClose?;
    if r.waiting == [] {
      assert Scheduled(r.waiting, override) == [];
      assert ticks == r.ticks + forced;
    }
  }

  /** The closes put off are now on their way, perhaps with a forced one behind them. */
  function Released(r: Reads, override: Option<bool>, forced: seq<Tick>): Reads {
    r.(ticks := r.ticks + Scheduled(r.waiting, override) + forced, waiting := [])
  }

  lemma ReleaseFlows(m: Machine, m': Machine, override: Option<bool>, forced: seq<Tick>)
    requires Flowing(m) && m'.intake == Released(m.intake, override, forced) && !m'.client.closed
    requires forall i :: 0 <= i < |forced| ==> forced[i].ForceClose?
    ensures Flowing(m')
  {
    if Defers(m'.intake) { ReleaseDefers(m.intake, override, forced); }
    StillFlows(m, m');
  }

  lemma ReleasedPlain(r: Reads, override: Option<bool>)
    ensures ReleaseWaiting(r, override) == Released(r, override, [])
  {
  }

  lemma FailureFlows(m: Machine)
    requires Flowing(m)
    ensures Flowing(OnFail(m))
  {
    if !m.client.destroyed {
      var forced: seq<Tick> := if m.link.swapped then [ForceClose] else [];
      ReleasedPlain(m.intake, Some(true));
      assert OnFail(m).intake == Released(m.intake, Some(true), forced);
      ReleaseFlows(m, OnFail(m), Some(true), forced);
    }
  }

  lemma ReleasingStepFlows(m: Machine, e: Event)
    requires Flowing(m) && (e.ReadEnd? || e.DestroyClient? || e.Fails?)
    ensures Flowing(Step(m, e))
  {
    if e.Fails? {
      FailureFlows(m);
    } else if Step(m, e) != m {
      var override := if e.ReadEnd? then None else Some(e.hadError);
      ReleasedPlain(m.intake, override);
      ReleaseFlows(m, Step(m, e), override, []);
    }
  }

  lemma StepFlows(m: Machine, e: Event)
    requires Flowing(m) && !Step(m, e).client.closed
    ensures Flowing(Step(m, e))
  {
    if OffStage(e) {
      OffStageKeepsIntake(m, e);
      StillFlows(m, Step(m, e));
    } else if e.Arrives? {
      if Attached(m.link, e.conn) { ArrivalFlows(m, e.read); }
    } else if e.Uncork? {
      if m.intake.corked { UncorkFlows(m); }
    } else if e.Cork? {
      StillFlows(m, Step(m, e));
    } else if e.ReadEnd? || e.DestroyClient? || e.Fails? {
      ReleasingStepFlows(m, e);
    }
  }

  lemma StartFlows(original: Target)
    ensures Flowing(Start(original))
  {
    assert !Defers(Start(original).intake);
  }

  lemma {:induction false} RunFlows(original: Target, events: seq<Event>)
    requires !Run(Start(original), events).client.closed
    ensures Flowing(Run(Start(original), events))
  {
    StartFlows(original);
    if events != [] {
      var m, e := Run(Start(original), Init(events)), Last(events);
      if m.client.closed {
        StepStaysClosed(m, e);
      } else {
        RunFlows(original, Init(events));
        StepFlows(m, e);
      }
    }
  }

  /**
   Over every run, until the client closes: what the client got, followed by
   what is still corked, is exactly what arrived, in order; and nothing is
   withheld unless the reads are corked.
   */
  lemma CorkIsTransparent(original: Target, events: seq<Event>)
    requires !Run(Start(original), events).client.closed
    ensures var r := Run(Start(original), events).intake;
            r.delivered + AsClient(r.queue) == AsClient(r.arrived) && (!r.corked ==> r.delivered == AsClient(r.arrived))
  {
    var r := Run(Start(original), events).intake;
    RunFlows(original, events);
    AsClientConcat(r.passed, r.queue);
    if !r.corked { assert r.passed + [] == r.passed; }
  }

  /** While the reads are corked, no data and no end reaches the client. */
  lemma CorkWithholds(m: Machine, e: Event)
    requires m.intake.corked && e != Uncork
    ensures var d, d' := m.intake.delivered, Step(m, e).intake.delivered;
            d' == d || (|d'| == |d| + 1 && d'[..|d|] == d && d'[|d|].GotClose?)
  {
    if OffStage(e) {
      OffStageKeepsIntake(m, e);
    }
  }

  // ---------------------------------------------------------------------
  // Closing
  // ---------------------------------------------------------------------

  /**
   When the peer's close closes the client, everything that arrived before that
   close has been delivered before it: forwarded, replayed and deferred alike.
   */
  lemma CloseNeverOvertakes(original: Target, events: seq<Event>, e: Event)
    requires !Run(Start(original), events).client.closed
    requires Step(Run(Start(original), events), e).client.closed
    ensures var r := Step(Run(Start(original), events), e).intake;
            ClosedInOrder(r.delivered, r.arrived)
  {
    RunFlows(original, events);
    StepCloses(Run(Start(original), events), e);
  }

  /** A tick or the socket's own close emits one close on a client that had none. */
  lemma {:induction false} TickCloses(m: Machine)
    requires Flowing(m) && DoTick(m).client.closed
    ensures ClosedInOrder(DoTick(m).intake.delivered, DoTick(m).intake.arrived)
  {
    var r := m.intake;
    if r.ticks[0].DeliverClose? {
      assert Defers(r);
      CloseReadyGrows(r.passed, r.queue, r.delivered, r.delivered);
      hide CloseReady, ClosedInOrder, NoClose;
      OneClose(r.delivered, GotClose(r.ticks[0].hadError, Deferred), r.arrived);
    } else {
      hide CloseReady, ClosedInOrder, NoClose;
      OneClose(r.delivered, GotClose(true, Forced), r.arrived);
    }
  }

  lemma {:induction false} LocalCloses(m: Machine, e: Event)
    requires Flowing(m) && Step(m, e).client.closed && (e.RunTick? || e.NativeClose?)
    ensures ClosedInOrder(Step(m, e).intake.delivered, Step(m, e).intake.arrived)
  {
    if e.RunTick? {
      hide DoTick, Flowing;
      TickCloses(m);
    } else {
      hide CloseReady, ClosedInOrder;
      OneClose(m.intake.delivered, GotClose(false, Native), m.intake.arrived);
    }
  }

  lemma StepCloses(m: Machine, e: Event)
    requires Flowing(m) && Step(m, e).client.closed
    ensures ClosedInOrder(Step(m, e).intake.delivered, Step(m, e).intake.arrived)
  {
    if OffStage(e) {
      OffStageKeepsIntake(m, e);
    } else if e.Uncork? {
      UncorkFlows(m);
    } else if e.Arrives? {
      ArrivalFlows(m, e.read);
    } else {
      LocalCloses(m, e);
    }
  }

  /** A forwarded or deferred close only comes when no close came before. */
  ghost predicate GuardedComeFirst(delivered: seq<ClientEvent>) {
    forall p :: 0 <= p < |delivered| && delivered[p].GotClose? &&
                (delivered[p].origin.Forwarded? || delivered[p].origin.Deferred?) ==>
      NoClose(delivered[..p])
  }

  lemma GuardedSnoc(delivered: seq<ClientEvent>, x: ClientEvent)
    requires GuardedComeFirst(delivered)
    requires x.GotClose? && (x.origin.Forwarded? || x.origin.Deferred?) ==> NoClose(delivered)
    ensures GuardedComeFirst(delivered + [x])
  {
    var d' := delivered + [x];
    forall p | 0 <= p < |d'| && d'[p].GotClose? && (d'[p].origin.Forwarded? || d'[p].origin.Deferred?)
      ensures NoClose(d'[..p])
    {
      if p < |delivered| {
        assert d'[..p] == delivered[..p];
      } else {
        assert d'[..p] == delivered;
      }
    }
  }

  ghost predicate Guarded(m: Machine) {
    GuardedComeFirst(m.intake.delivered) && (!m.client.closed ==> NoClose(m.intake.delivered))
  }

  lemma {:induction false} ReplayIsGuarded(m: Machine, events: seq<ReadEvent>)
    requires Guarded(m)
    ensures Guarded(Replay(m, events))
  {
    if events != [] {
      var before := Replay(m, Init(events));
      ReplayIsGuarded(m, Init(events));
      if Replay(m, events).intake.delivered != before.intake.delivered {
        GuardedSnoc(before.intake.delivered, Last(Replay(m, events).intake.delivered));
      }
    }
  }

  lemma EmitIsGuarded(m: Machine, hadError: bool, origin: Origin)
    requires Guarded(m) && ((origin.Forwarded? || origin.Deferred?) ==> !m.client.closed)
    ensures Guarded(EmitClose(m, hadError, origin))
  {
    GuardedSnoc(m.intake.delivered, GotClose(hadError, origin));
  }

  lemma ArrivalIsGuarded(m: Machine, e: ReadEvent)
    requires Guarded(m)
    ensures Guarded(OnRead(m, e))
  {
    var r := m.intake;
    var passed := m.(intake := r.(arrived := r.arrived + [e], passed := r.passed + [e]));
    if r.corked {
    } else if !e.RealClose? {
      GuardedSnoc(r.delivered, if e.RealEnd? then GotEnd else GotData(e.chunk));
    } else if !m.client.closed && !EndUnread(m.client) {
      EmitIsGuarded(passed, e.hadError, Forwarded);
    }
  }

  lemma TickIsGuarded(m: Machine)
    requires Guarded(m)
    ensures Guarded(DoTick(m))
  {
    if m.intake.ticks != [] {
      var m1 := m.(intake := m.intake.(ticks := m.intake.ticks[1..]));
      match m.intake.ticks[0]
      case DeliverClose(hadError) => if !m.client.closed { EmitIsGuarded(m1, hadError, Deferred); }
      case ForceClose => EmitIsGuarded(m1, true, Forced);
    }
  }

  lemma {:induction false} StepIsGuarded(m: Machine, e: Event)
    requires Guarded(m)
    ensures Guarded(Step(m, e))
  {
    hide GuardedComeFirst;
    if OffStage(e) {
      OffStageKeepsIntake(m, e);
    } else {
      match e
      case Uncork => ReplayIsGuarded(Opened(m), m.intake.queue);
      case Arrives(_, read) => ArrivalIsGuarded(m, read);
      case RunTick => TickIsGuarded(m);
      case NativeClose => EmitIsGuarded(m, false, Native);
      case _ =>
    }
  }

  /** Over every run: the deferred path, and the forwarding one, never close a closed client. */
  lemma {:induction false} DeferredClosesOnce(original: Target, events: seq<Event>)
    ensures Guarded(Run(Start(original), events))
  {
    if events != [] {
      DeferredClosesOnce(original, Init(events));
      StepIsGuarded(Run(Start(original), Init(events)), Last(events));
    }
  }

  /** The end-of-stream was pushed and is unread; nothing has closed the client. */
  predicate AwaitsReader(m: Machine) {
    EndUnread(m.client) && !m.client.closed && m.intake.ticks == []
  }

  /** The reader reads the end, or the socket is destroyed. */
  predicate EndsWaiting(e: Event) {
    e.ReadEnd? || e.DestroyClient? || e.Fails?
  }

  lemma {:induction false} ReplayWaits(m: Machine, events: seq<ReadEvent>)
    requires AwaitsReader(m)
    ensures AwaitsReader(Replay(m, events)) && m.intake.waiting <= Replay(m, events).intake.waiting
  {
    if events != [] {
      ReplayWaits(m, Init(events));
    }
  }

  lemma StepWaits(m: Machine, e: Event)
    requires AwaitsReader(m) && !EndsWaiting(e)
    ensures AwaitsReader(Step(m, e)) && m.intake.waiting <= Step(m, e).intake.waiting
  {
    if OffStage(e) {
      OffStageKeepsIntake(m, e);
    } else if e.Uncork? {
      ReplayWaits(Opened(m), m.intake.queue);
    }
  }

  /** The close waits, over every run in which the consumer neither reads the end nor destroys the socket. */
  lemma {:induction false} CloseWaitsForEnd(m: Machine, events: seq<Event>)
    requires AwaitsReader(m)
    requires forall i :: 0 <= i < |events| ==> !EndsWaiting(events[i])
    ensures AwaitsReader(Run(m, events)) && m.intake.waiting <= Run(m, events).intake.waiting
  {
    if events != [] {
      CloseWaitsForEnd(m, Init(events));
      StepWaits(Run(m, Init(events)), Last(events));
    }
  }

  /** Reading the end, or destroying the socket, then releases exactly one close. */
  lemma ReleasedClose(m: Machine, e: Event)
    requires AwaitsReader(m) && m.intake.waiting != [] && (e.ReadEnd? || e.DestroyClient?)
    ensures var m' := Step(Step(m, e), RunTick);
            m'.client.closed &&
            m'.intake.delivered == m.intake.delivered +
              [GotClose(if e.ReadEnd? then m.intake.waiting[0] else e.hadError, Origin.Deferred)]
  {
    ScheduledAreCloses(m.intake.waiting, if e.ReadEnd? then None else Some(e.hadError));
  }

  // ---------------------------------------------------------------------
  // Replaying is not guarded
  // ---------------------------------------------------------------------

  function CloseCount(delivered: seq<ClientEvent>): nat {
    if delivered == [] then 0 else CloseCount(Init(delivered)) + (if Last(delivered).GotClose? then 1 else 0)
  }

  /** The client once these events were pushed to it. */
  function AfterPushes(c: Client, events: seq<ReadEvent>): Client {
    if RealEnd in events then c.(endPushed := true) else c
  }

  /** A corked close that is delivered at once: no pushed end is unread at that point of the queue. */
  predicate Slips(c: Client, queue: seq<ReadEvent>, k: nat) {
    k < |queue| && queue[k].RealClose? && !EndUnread(AfterPushes(c, queue[..k]))
  }

  function SlipCount(c: Client, queue: seq<ReadEvent>): nat {
    if queue == [] then 0 else SlipCount(c, Init(queue)) + (if Slips(c, queue, |queue| - 1) then 1 else 0)
  }

  /** The parts of a client that decide whether a pushed end is unread. */
  predicate SameReader(c: Client, c': Client) {
    c'.endPushed == c.endPushed && c'.endRead == c.endRead && c'.destroyed == c.destroyed
  }

  lemma ReplayOneCounts(m: Machine, e: ReadEvent)
    ensures var m' := ReplayOne(m, e);
            && CloseCount(m'.intake.delivered) ==
                 CloseCount(m.intake.delivered) + (if e.RealClose? && !EndUnread(m.client) then 1 else 0)
            && SameReader(if e.RealEnd? then m.client.(endPushed := true) else m.client, m'.client)
  {
    match e
    case RealData(chunk) => InitOfSnoc(m.intake.delivered, GotData(chunk));
    case RealEnd => InitOfSnoc(m.intake.delivered, GotEnd);
    case RealClose(hadError) => InitOfSnoc(m.intake.delivered, GotClose(hadError, Replayed));
  }

  lemma AfterOneMore(c: Client, events: seq<ReadEvent>)
    requires events != []
    ensures var c1 := AfterPushes(c, Init(events));
            AfterPushes(c, events) == if Last(events).RealEnd? then c1.(endPushed := true) else c1
  {
    InitLast(events);
  }

  /** A replay emits one close for every corked close that slips through, closed or not. */
  lemma {:induction false} ReplayCloseCount(m: Machine, events: seq<ReadEvent>)
    ensures CloseCount(Replay(m, events).intake.delivered) ==
            CloseCount(m.intake.delivered) + SlipCount(m.client, events)
    ensures SameReader(AfterPushes(m.client, events), Replay(m, events).client)
  {
    if events != [] {
      ReplayCloseCount(m, Init(events));
      AfterOneMore(m.client, events);
      ReplayOneCounts(Replay(m, Init(events)), Last(events));
      hide ReplayOne, CloseCount, AfterPushes;
      assert events[..|events| - 1] == Init(events);
    }
  }

  lemma {:induction false} SlipCountIsPositive(c: Client, queue: seq<ReadEvent>)
    ensures SlipCount(c, queue) > 0 <==> exists k :: 0 <= k < |queue| && Slips(c, queue, k)
  {
    if queue != [] {
      var before := Init(queue);
      SlipCountIsPositive(c, before);
      forall k | 0 <= k < |before| ensures Slips(c, before, k) <==> Slips(c, queue, k) {
        assert before[..k] == queue[..k];
      }
    }
  }

  /** Uncorking closes a client that is closed already exactly when a corked close slips through. */
  lemma ReplayClosesAgainIff(m: Machine)
    requires m.client.closed && m.intake.corked
    ensures CloseCount(Step(m, Uncork).intake.delivered) > CloseCount(m.intake.delivered) <==>
              exists k :: 0 <= k < |m.intake.queue| && Slips(m.client, m.intake.queue, k)
  {
    ReplayCloseCount(Opened(m), m.intake.queue);
    SlipCountIsPositive(m.client, m.intake.queue);
  }

  /** A client destroyed and closed; its request is passed through after that, and its reads corked. */
  function PassedAfterClose(original: Target): Machine {
    var closed := Step(Step(Start(original), DestroyClient(false)), NativeClose);
    Step(Step(Step(closed, Perform(Pass(None))), Cork), Arrives(0, RealClose(false)))
  }

  lemma ClosedNatively(original: Target)
    ensures Step(Step(Start(original), DestroyClient(false)), NativeClose) ==
              var m := Start(original);
              m.(client := m.client.(destroyed := true, closed := true),
                 intake := m.intake.(delivered := [GotClose(false, Native)]))
  {
    var m := Step(Start(original), DestroyClient(false));
    assert m == Start(original).(client := Start(original).client.(destroyed := true));
  }

  lemma PassOfClosed(m: Machine)
    requires m.ctl.readyState.Pending? && m.link.conns == [] && m.link.current.None?
    ensures var m' := Step(m, Perform(Pass(None)));
            m'.client == m.client && m'.intake == m.intake && m'.link.conns == [Conn(Effective(m.link), false, true)]
  {
  }

  lemma PassedAfterCloseHolds(original: Target)
    ensures var m := PassedAfterClose(original);
            && m.client.closed && m.client.destroyed && m.intake.corked
            && m.intake.queue == [RealClose(false)] && m.intake.delivered == [GotClose(false, Native)]
  {
    ClosedNatively(original);
    var closed := Step(Step(Start(original), DestroyClient(false)), NativeClose);
    PassOfClosed(closed);
    hide DoPass, DoDestroy, DoNativeClose;
  }

  /** That happens with one close on the one connection: the client closes a second time. */
  lemma ReplayCanCloseTwice(original: Target)
    ensures PassedAfterClose(original).client.closed
    ensures Step(PassedAfterClose(original), Uncork).intake.delivered ==
              [GotClose(false, Native), GotClose(false, Origin.Replayed)]
  {
    PassedAfterCloseHolds(original);
    hide PassedAfterClose;
    var m0 := Opened(PassedAfterClose(original));
    assert Replay(m0, [RealClose(false)]) == ReplayOne(Replay(m0, []), RealClose(false));
  }
}
