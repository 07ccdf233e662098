/**
 What corked reads come to: the cork is on as long as the last order was to put it on, and
 taking it off delivers everything it kept.
 */
module SocketDelivery {
  import opened Prelude
  import opened SocketMachine
  import opened SocketIsolation
  import opened SocketReads

  // ---------------------------------------------------------------------
  // The cork
  // ---------------------------------------------------------------------

  /** The last order about the cork. */
  predicate LastCorked(events: seq<Event>) {
    events != [] && (Last(events).Cork? || (!Last(events).Uncork? && LastCorked(Init(events))))
  }

  lemma {:induction false} StepKeepsCork(m: Machine, e: Event)
    requires !Step(m, e).client.closed && (m.intake.corked || m.intake.queue == [])
    ensures Step(m, e).intake.corked == if e.Cork? then true else if e.Uncork? then false else m.intake.corked
  {
    if OffStage(e) {
      OffStageKeepsIntake(m, e);
    } else if e.Uncork? && m.intake.corked {
      ReplayKeepsCork(Opened(m), m.intake.queue);
    }
  }

  /** Until the client closes, its reads are corked exactly when the last order was to cork them. */
  lemma {:induction false} CorkedIff(original: Target, events: seq<Event>)
    requires !Run(Start(original), events).client.closed
    ensures Run(Start(original), events).intake.corked <==> LastCorked(events)
  {
    if events != [] {
      var m, e := Run(Start(original), Init(events)), Last(events);
      if m.client.closed { StepStaysClosed(m, e); }
      CorkedIff(original, Init(events));
      RunFlows(original, Init(events));
      StepKeepsCork(m, e);
    }
  }

  // ---------------------------------------------------------------------
  // Taking the cork off
  // ---------------------------------------------------------------------

  /** What a queue comes to on a client: a close at which a pushed end is unread is put off. */
  function ReplayedAs(c: Client, queue: seq<ReadEvent>): seq<ClientEvent> {
    if queue == [] then [] else
      ReplayedAs(c, Init(queue)) + LastReplayed(c, queue)
  }

  /** The closes of a queue that are put off. */
  function PutOff(c: Client, queue: seq<ReadEvent>): seq<bool> {
    if queue == [] then [] else
      PutOff(c, Init(queue)) +
        (if Last(queue).RealClose? && EndUnread(AfterPushes(c, Init(queue))) then [Last(queue).hadError] else [])
  }

  lemma ReplayOneIs(m: Machine, e: ReadEvent)
    ensures var m', r := ReplayOne(m, e), m.intake;
            match e
            case RealData(chunk) => m'.intake.delivered == r.delivered + [GotData(chunk)] && m'.intake.waiting == r.waiting
            case RealEnd => m'.intake.delivered == r.delivered + [GotEnd] && m'.intake.waiting == r.waiting
            case RealClose(hadError) =>
              if EndUnread(m.client) then m'.intake.delivered == r.delivered && m'.intake.waiting == r.waiting + [hadError]
              else m'.intake.delivered == r.delivered + [GotClose(hadError, Origin.Replayed)] && m'.intake.waiting == r.waiting
    ensures ReplayOne(m, e).client.closed <==> m.client.closed || (e.RealClose? && !EndUnread(m.client))
  {
  }

  lemma NoCloseConcat(a: seq<ClientEvent>, b: seq<ClientEvent>)
    ensures NoClose(a + b) <==> NoClose(a) && NoClose(b)
  {
    assert forall i :: 0 <= i < |a| ==> (a + b)[i] == a[i];
    assert forall i :: 0 <= i < |b| ==> (a + b)[|a| + i] == b[i];
  }

  /** What the last event of a queue comes to. */
  function LastReplayed(c: Client, queue: seq<ReadEvent>): seq<ClientEvent>
    requires queue != []
  {
    match Last(queue)
    case RealData(chunk) => [GotData(chunk)]
    case RealEnd => [GotEnd]
    case RealClose(hadError) =>
      if EndUnread(AfterPushes(c, Init(queue))) then [] else [GotClose(hadError, Origin.Replayed)]
  }

  lemma LastIsClose(c: Client, queue: seq<ReadEvent>)
    requires queue != []
    ensures NoClose(LastReplayed(c, queue)) <==> !(Last(queue).RealClose? && !EndUnread(AfterPushes(c, Init(queue))))
    ensures NoClose(LastReplayed(c, queue)) && Last(queue).RealClose? ==> LastReplayed(c, queue) == []
  {
    if Last(queue).RealClose? && !EndUnread(AfterPushes(c, Init(queue))) {
      assert LastReplayed(c, queue)[0].GotClose?;
    }
  }

  lemma {:induction false} ReplayIs(m: Machine, events: seq<ReadEvent>)
    ensures var r, r' := m.intake, Replay(m, events).intake;
            r'.delivered == r.delivered + ReplayedAs(m.client, events) && r'.waiting == r.waiting + PutOff(m.client, events)
    ensures Replay(m, events).client.closed <==> m.client.closed || !NoClose(ReplayedAs(m.client, events))
  {
    if events != [] {
      var before, e := Init(events), Last(events);
      var m1 := Replay(m, before);
      ReplayIs(m, before);
      ReplayCloseCount(m, before);
      ReplayOneIs(m1, e);
      assert EndUnread(m1.client) <==> EndUnread(AfterPushes(m.client, before));
      NoCloseConcat(ReplayedAs(m.client, before), LastReplayed(m.client, events));
      LastIsClose(m.client, events);
      hide ReplayOne, CloseCount, SlipCount, AfterPushes, NoClose;
    }
  }

  /**
   Over every run, uncorking hands the client the whole queue, in order, but for the closes
   it must put off; and nothing stays corked.
   */
  lemma UncorkReplays(original: Target, events: seq<Event>)
    requires Run(Start(original), events).intake.corked
    ensures var m, m' := Run(Start(original), events), Run(Start(original), events + [Uncork]);
            && m'.intake.delivered == m.intake.delivered + ReplayedAs(m.client, m.intake.queue)
            && m'.intake.waiting == m.intake.waiting + PutOff(m.client, m.intake.queue)
            && !m'.intake.corked && m'.intake.queue == []
  {
    var m := Run(Start(original), events);
    InitOfSnoc(events, Uncork);
    ReplayIs(Opened(m), m.intake.queue);
    ReplayKeepsCork(Opened(m), m.intake.queue);
  }

  /** Nothing is corked, and the client has got all that arrived. */
  predicate HasAll(r: Reads) {
    !r.corked && r.queue == [] && r.delivered == AsClient(r.arrived)
  }

  /** A client that is open after uncorking has got everything. */
  lemma {:induction false} UncorkedHasAll(m: Machine)
    requires Flowing(m) && !DoUncork(m).client.closed
    ensures HasAll(DoUncork(m).intake)
  {
    var r := m.intake;
    if r.corked {
      ReplayIs(Opened(m), r.queue);
      ReplayKeepsCork(Opened(m), r.queue);
      NoCloseIsStream(m.client, r.queue);
      AsClientConcat(r.passed, r.queue);
    } else {
      assert r.passed + [] == r.passed;
    }
    hide Replay, ReplayedAs, NoClose;
  }

  /** Over every run, a client that is open after uncorking has got all that arrived, and nothing is corked. */
  lemma UncorkDelivers(original: Target, events: seq<Event>)
    requires !Run(Start(original), events + [Uncork]).client.closed
    ensures HasAll(Run(Start(original), events + [Uncork]).intake)
  {
    var m := Run(Start(original), events);
    InitOfSnoc(events, Uncork);
    if m.client.closed { StepStaysClosed(m, Uncork); }
    RunFlows(original, events);
    UncorkedHasAll(m);
  }

  lemma {:induction false} NoCloseIsStream(c: Client, queue: seq<ReadEvent>)
    requires NoClose(ReplayedAs(c, queue))
    ensures ReplayedAs(c, queue) == AsClient(queue)
  {
    if queue != [] {
      NoCloseConcat(ReplayedAs(c, Init(queue)), LastReplayed(c, queue));
      NoCloseIsStream(c, Init(queue));
      LastIsClose(c, queue);
    }
  }

  lemma {:induction false} UpToCloseAfter(a: seq<ClientEvent>, b: seq<ClientEvent>)
    requires NoClose(a)
    ensures UpToClose(a + b) == a + UpToClose(b)
  {
    if a == [] {
      assert a + b == b;
    } else {
      assert (a + b)[1..] == a[1..] + b;
      UpToCloseAfter(a[1..], b);
    }
  }

  lemma {:induction false} UpToCloseOfAll(a: seq<ClientEvent>)
    requires NoClose(a)
    ensures UpToClose(a) == a
  {
    UpToCloseAfter(a, []);
    assert a + [] == a;
  }

  /** A close in the queue, and what comes before it, at the first close of what the queue comes to. */
  predicate FirstCloseAt(delivered: seq<ClientEvent>, arrived: seq<ReadEvent>, k: nat) {
    && k < |arrived| && arrived[k].RealClose?
    && UpToClose(delivered) == AsClient(arrived[..k]) && |UpToClose(delivered)| < |delivered|
    && delivered[|UpToClose(delivered)|] == GotClose(arrived[k].hadError, Origin.Replayed)
  }

  lemma {:induction false} FirstClose(c: Client, queue: seq<ReadEvent>) returns (k: nat)
    requires !NoClose(ReplayedAs(c, queue))
    ensures FirstCloseAt(ReplayedAs(c, queue), queue, k)
  {
    var before, last := ReplayedAs(c, Init(queue)), LastReplayed(c, queue);
    NoCloseConcat(before, last);
    LastIsClose(c, queue);
    if NoClose(before) {
      NoCloseIsStream(c, Init(queue));
      LastIsFirst(before, queue, last[0]);
      return |queue| - 1;
    } else {
      k := FirstClose(c, Init(queue));
      FirstCloseStays(before, Init(queue), k, last, Last(queue));
      InitLast(queue);
    }
  }

  lemma {:induction false} LastIsFirst(before: seq<ClientEvent>, queue: seq<ReadEvent>, close: ClientEvent)
    requires queue != [] && NoClose(before) && before == AsClient(Init(queue)) && Last(queue).RealClose?
    requires close == GotClose(Last(queue).hadError, Origin.Replayed)
    ensures FirstCloseAt(before + [close], queue, |queue| - 1)
  {
    UpToCloseAfter(before, [close]);
    assert UpToClose([close]) == [] && before + [] == before;
    assert queue[..|queue| - 1] == Init(queue);
  }

  lemma {:induction false} FirstCloseStays(delivered: seq<ClientEvent>, arrived: seq<ReadEvent>, k: nat,
                                           more: seq<ClientEvent>, e: ReadEvent)
    requires FirstCloseAt(delivered, arrived, k) && |more| <= 1
    ensures FirstCloseAt(delivered + more, arrived + [e], k)
  {
    if |more| == 1 {
      UpToCloseGrows(delivered, more[0]);
      assert delivered + more == delivered + [more[0]];
    } else {
      assert delivered + more == delivered;
    }
    assert (arrived + [e])[..k] == arrived[..k];
    var before := |UpToClose(delivered)|;
    assert (delivered + more)[before] == delivered[before];
  }

  lemma {:induction false} FirstCloseAfter(before: seq<ClientEvent>, delivered: seq<ClientEvent>, passed: seq<ReadEvent>,
                                           arrived: seq<ReadEvent>, k: nat)
    requires NoClose(before) && before == AsClient(passed) && FirstCloseAt(delivered, arrived, k)
    ensures FirstCloseAt(before + delivered, passed + arrived, |passed| + k)
  {
    UpToCloseAfter(before, delivered);
    AsClientConcat(passed, arrived[..k]);
    hide UpToClose, AsClient, NoClose;
    assert (passed + arrived)[..|passed| + k] == passed + arrived[..k];
    assert (passed + arrived)[|passed| + k] == arrived[k];
    assert (before + delivered)[|before| + |UpToClose(delivered)|] == delivered[|UpToClose(delivered)|];
  }

  lemma {:induction false} ReplayClosesFrom(m: Machine) returns (k: nat)
    requires Flowing(m) && Replay(Opened(m), m.intake.queue).client.closed
    ensures var r, r' := m.intake, Replay(Opened(m), m.intake.queue).intake;
            && r'.arrived == r.arrived && |r.arrived| - |r.queue| <= k && FirstCloseAt(r'.delivered, r.arrived, k)
  {
    var r := m.intake;
    ReplayIs(Opened(m), r.queue);
    ReplayKeepsCork(Opened(m), r.queue);
    var j := FirstClose(m.client, r.queue);
    hide Replay, ReplayedAs, FirstCloseAt;
    FirstCloseAfter(r.delivered, ReplayedAs(m.client, r.queue), r.passed, r.queue, j);
    k := |r.passed| + j;
  }

  /**
   Over every run, when uncorking closes a client, that is the work of a corked close, and
   what the client got before is everything that arrived before that close.
   */
  lemma {:induction false} UncorkCloses(original: Target, events: seq<Event>)
    requires !Run(Start(original), events).client.closed
    requires Run(Start(original), events + [Uncork]).client.closed
    ensures var r, r' := Run(Start(original), events).intake, Run(Start(original), events + [Uncork]).intake;
            && r'.arrived == r.arrived
            && exists k: nat :: |r.arrived| - |r.queue| <= k && FirstCloseAt(r'.delivered, r.arrived, k)
  {
    var m := Run(Start(original), events);
    InitOfSnoc(events, Uncork);
    RunFlows(original, events);
    assert Run(Start(original), events + [Uncork]) == Replay(Opened(m), m.intake.queue);
    hide Run, Replay, FirstCloseAt;
    var k := ReplayClosesFrom(m);
  }

  // ---------------------------------------------------------------------
  // The end-of-stream, and destroying the client
  // ---------------------------------------------------------------------

  lemma {:induction false} ReplayKeepsEnd(m: Machine, events: seq<ReadEvent>)
    requires m.client.endPushed <==> GotEnd in m.intake.delivered
    ensures Replay(m, events).client.endPushed <==> GotEnd in Replay(m, events).intake.delivered
    ensures Replay(m, events).client.endRead == m.client.endRead && Replay(m, events).client.destroyed == m.client.destroyed
  {
    if events != [] { ReplayKeepsEnd(m, Init(events)); }
  }

  lemma {:induction false} StepKeepsEnd(m: Machine, e: Event)
    requires m.client.endPushed <==> GotEnd in m.intake.delivered
    ensures Step(m, e).client.endPushed <==> GotEnd in Step(m, e).intake.delivered
  {
    if OffStage(e) {
      OffStageKeepsIntake(m, e);
      hide Step;
    } else {
      hide OnRead, Replay, DoTick, EmitClose;
      match e
      case Uncork => if m.intake.corked { ReplayKeepsEnd(Opened(m), m.intake.queue); }
      case Arrives(_, read) => ArrivalKeepsEnd(m, read);
      case RunTick => TickKeepsEnd(m);
      case NativeClose => EmitKeepsEnd(m, false, Native);
      case _ =>
    }
  }

  lemma {:induction false} EmitKeepsEnd(m: Machine, hadError: bool, origin: Origin)
    ensures var m' := EmitClose(m, hadError, origin);
            m'.client.endPushed == m.client.endPushed && (GotEnd in m'.intake.delivered <==> GotEnd in m.intake.delivered)
  {
  }

  lemma {:induction false} TickKeepsEnd(m: Machine)
    ensures var m' := DoTick(m);
            m'.client.endPushed == m.client.endPushed && (GotEnd in m'.intake.delivered <==> GotEnd in m.intake.delivered)
  {
  }

  lemma {:induction false} ArrivalKeepsEnd(m: Machine, e: ReadEvent)
    requires m.client.endPushed <==> GotEnd in m.intake.delivered
    ensures OnRead(m, e).client.endPushed <==> GotEnd in OnRead(m, e).intake.delivered
  {
  }

  /** Over every run, the end is pushed exactly when the client has got it. */
  lemma {:induction false} EndPushedIff(original: Target, events: seq<Event>)
    ensures var m := Run(Start(original), events); m.client.endPushed <==> GotEnd in m.intake.delivered
  {
    if events != [] {
      EndPushedIff(original, Init(events));
      StepKeepsEnd(Run(Start(original), Init(events)), Last(events));
    }
  }

  predicate DestroysAt(original: Target, events: seq<Event>, k: nat)
    requires k < |events|
  {
    events[k].DestroyClient? || (events[k].Fails? && Attached(Run(Start(original), events[..k]).link, events[k].conn))
  }

  lemma {:induction false} StepKeepsReader(m: Machine, e: Event)
    ensures Step(m, e).client.destroyed <==>
              m.client.destroyed || e.DestroyClient? || (e.Fails? && Attached(m.link, e.conn))
    ensures Step(m, e).client.endRead <==>
              m.client.endRead || (e.ReadEnd? && m.client.endPushed && !m.client.destroyed)
  {
    if OffStage(e) {
      OffStageKeepsIntake(m, e);
      hide Step;
    } else if e.Uncork? && m.intake.corked {
      ReplayKeepsReader(Opened(m), m.intake.queue);
    }
    hide Replay, Scheduled;
  }

  lemma {:induction false} ReplayKeepsReader(m: Machine, events: seq<ReadEvent>)
    ensures Replay(m, events).client.endRead == m.client.endRead && Replay(m, events).client.destroyed == m.client.destroyed
  {
    if events != [] { ReplayKeepsReader(m, Init(events)); }
  }

  lemma {:induction false} DestroysAtInit(original: Target, events: seq<Event>)
    requires events != []
    ensures (exists k :: 0 <= k < |events| && DestroysAt(original, events, k)) <==>
              (exists k :: 0 <= k < |Init(events)| && DestroysAt(original, Init(events), k))
              || Last(events).DestroyClient?
              || (Last(events).Fails? && Attached(Run(Start(original), Init(events)).link, Last(events).conn))
  {
    hide Run, Attached;
    var before, last := Init(events), |events| - 1;
    assert events[..last] == before && Last(events) == events[last];
    assert DestroysAt(original, events, last) <==>
           Last(events).DestroyClient? ||
           (Last(events).Fails? && Attached(Run(Start(original), before).link, Last(events).conn));
    forall k | 0 <= k < last ensures DestroysAt(original, before, k) <==> DestroysAt(original, events, k) {
      assert before[..k] == events[..k];
    }
  }

  /** Over every run, the client is destroyed exactly when it was told to, or an attached connection failed. */
  lemma {:induction false} DestroyedIff(original: Target, events: seq<Event>)
    ensures Run(Start(original), events).client.destroyed <==>
              exists k :: 0 <= k < |events| && DestroysAt(original, events, k)
  {
    if events != [] {
      DestroyedIff(original, Init(events));
      StepKeepsReader(Run(Start(original), Init(events)), Last(events));
      hide Step, DestroysAt;
      DestroysAtInit(original, events);
    }
  }

  /** The consumer reads on, and there is an end to read. */
  predicate ReadsEnd(m: Machine, e: Event) {
    e.ReadEnd? && GotEnd in m.intake.delivered && !m.client.destroyed
  }

  predicate ReadsEndAt(original: Target, events: seq<Event>, k: nat)
    requires k < |events|
  {
    ReadsEnd(Run(Start(original), events[..k]), events[k])
  }

  lemma {:induction false} ReadsEndAtInit(original: Target, events: seq<Event>)
    requires events != []
    ensures (exists k :: 0 <= k < |events| && ReadsEndAt(original, events, k)) <==>
              (exists k :: 0 <= k < |Init(events)| && ReadsEndAt(original, Init(events), k))
              || ReadsEnd(Run(Start(original), Init(events)), Last(events))
  {
    hide Run, ReadsEnd;
    var before, last := Init(events), |events| - 1;
    assert events[..last] == before && Last(events) == events[last];
    assert ReadsEndAt(original, events, last) <==> ReadsEnd(Run(Start(original), before), Last(events));
    forall k | 0 <= k < last ensures ReadsEndAt(original, before, k) <==> ReadsEndAt(original, events, k) {
      assert before[..k] == events[..k];
    }
  }

  /** Over every run, the end was read exactly when the consumer read on with an end to read. */
  lemma {:induction false} EndReadIff(original: Target, events: seq<Event>)
    ensures Run(Start(original), events).client.endRead <==>
              exists k :: 0 <= k < |events| && ReadsEndAt(original, events, k)
  {
    if events != [] {
      EndReadIff(original, Init(events));
      EndPushedIff(original, Init(events));
      StepKeepsReader(Run(Start(original), Init(events)), Last(events));
      hide Step, ReadsEndAt;
      ReadsEndAtInit(original, events);
    }
  }
}
