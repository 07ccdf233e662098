/**
 Retargeting the controller (an established tunnel): later bytes go only to the
 new target, and the abandoned connection has no say any more.
 */
module SocketRetarget {
  import opened Prelude
  import opened SocketMachine
  import opened SocketIsolation

  predicate Retargets(a: Action) {
    a.Reset? && a.target.Some?
  }

  predicate KeepsTarget(e: Event) {
    match e
    case ClientWrite(_, _, _, acts) => forall i :: 0 <= i < |acts| ==> !Retargets(acts[i])
    case DeferredPush(acts) => forall i :: 0 <= i < |acts| ==> !Retargets(acts[i])
    case Perform(act) => !Retargets(act)
    case _ => true
  }

  /** Everything sent since was wanted at this target. */
  ghost predicate GrewFor(sent: seq<Sent>, sent': seq<Sent>, target: Target) {
    && |sent| <= |sent'| && sent'[..|sent|] == sent
    && forall k :: |sent| <= k < |sent'| ==> sent'[k].wanted == target
  }

  lemma ActGrowsFor(m: Machine, a: Action)
    requires !Retargets(a)
    ensures Effective(Act(m, a).link) == Effective(m.link)
    ensures GrewFor(m.log.sent, Act(m, a).log.sent, Effective(m.link))
  {
  }

  lemma {:induction false} ActAllGrowsFor(m: Machine, acts: seq<Action>)
    requires forall i :: 0 <= i < |acts| ==> !Retargets(acts[i])
    ensures Effective(ActAll(m, acts).link) == Effective(m.link)
    ensures GrewFor(m.log.sent, ActAll(m, acts).log.sent, Effective(m.link))
  {
    if acts != [] {
      ActAllGrowsFor(m, Init(acts));
      ActGrowsFor(ActAll(m, Init(acts)), Last(acts));
    }
  }

  lemma {:induction false} ReplayKeepsTarget(m: Machine, events: seq<ReadEvent>)
    ensures Effective(Replay(m, events).link) == Effective(m.link)
  {
    if events != [] {
      ReplayKeepsTarget(m, Init(events));
    }
  }

  lemma BufferGrowsFor(m: Machine, data: Data, callback: bool)
    ensures Effective(Buffer(m, data, callback).link) == Effective(m.link)
    ensures Buffer(m, data, callback).log.sent == m.log.sent
  {
  }

  lemma SettleGrowsFor(m: Machine, w: Write, callback: bool)
    ensures Settle(m, w, callback).link == m.link
    ensures GrewFor(m.log.sent, Settle(m, w, callback).log.sent, Effective(m.link))
  {
  }

  lemma GrewTwice(a: seq<Sent>, b: seq<Sent>, c: seq<Sent>, target: Target)
    requires GrewFor(a, b, target) && GrewFor(b, c, target)
    ensures GrewFor(a, c, target)
  {
  }

  lemma {:induction false} WriteGrowsFor(m: Machine, e: Event)
    requires e.ClientWrite? && KeepsTarget(e)
    ensures Effective(Step(m, e).link) == Effective(m.link)
    ensures GrewFor(m.log.sent, Step(m, e).log.sent, Effective(m.link))
  {
    var w, m1 := Write(WriteCount(m), e.data), Buffer(m, e.data, e.callback);
    var m2 := Push(m1, w, e.listening, e.acts);
    BufferGrowsFor(m, e.data, e.callback);
    ActAllGrowsFor(m1.(log := m1.log.(shown := m1.log.shown + [w])), e.acts);
    SettleGrowsFor(m2, w, e.callback);
    hide ActAll, Settle, Buffer, Effective;
    GrewTwice(m.log.sent, m2.log.sent, Step(m, e).log.sent, Effective(m.link));
  }

  lemma StepGrowsFor(m: Machine, e: Event)
    requires KeepsTarget(e)
    ensures Effective(Step(m, e).link) == Effective(m.link)
    ensures GrewFor(m.log.sent, Step(m, e).log.sent, Effective(m.link))
  {
    match e
    case ClientWrite(data, callback, listening, acts) => WriteGrowsFor(m, e);
    case DeferredPush(acts) => if m.log.owed != [] { ActAllGrowsFor(ShowOwed(m), acts); }
    case Perform(act) => ActGrowsFor(m, act);
    case Uncork =>
      ReadStepKeepsWriteSide(m, e);
      ReplayKeepsTarget(Opened(m), m.intake.queue);
    case _ =>
  }

  lemma {:induction false} RunGrowsFor(m: Machine, events: seq<Event>)
    requires forall i :: 0 <= i < |events| ==> KeepsTarget(events[i])
    ensures Effective(Run(m, events).link) == Effective(m.link)
    ensures GrewFor(m.log.sent, Run(m, events).log.sent, Effective(m.link))
  {
    if events != [] {
      RunGrowsFor(m, Init(events));
      StepGrowsFor(Run(m, Init(events)), Last(events));
    }
  }

  /** The connection a write was handed to. */
  function ConnOf(s: Sent): Option<nat> {
    match s.route
    case Direct(c) => Some(c)
    case Handle(owner) => owner
  }

  /**
   After a retarget, until the next one, every byte handed over goes to a
   connection made to the new target, and a live passthrough connection has it.
   */
  lemma {:induction false} RetargetRoutes(m: Machine, target: Target, events: seq<Event>)
    requires Open(m)
    requires DisciplinedRun(DoReset(m, Some(target)), events)
    requires forall i :: 0 <= i < |events| ==> KeepsTarget(events[i])
    requires !Run(DoReset(m, Some(target)), events).client.closed
    ensures var m' := Run(DoReset(m, Some(target)), events);
            && (forall k :: |m.log.sent| <= k < |m'.log.sent| ==>
                  var c := ConnOf(m'.log.sent[k]);
                  c.Some? && c.value < |m'.link.conns| && m'.link.conns[c.value].target == target)
            && (m'.link.current.Some? ==>
                  m'.link.current.value < |m'.link.conns| && m'.link.conns[m'.link.current.value].target == target)
  {
    var m1 := DoReset(m, Some(target));
    ActKeepsOpen(m, Reset(Some(target)));
    RunKeepsOpen(m1, events);
    RunGrowsFor(m1, events);
    var m' := Run(m1, events);
    forall k | |m.log.sent| <= k < |m'.log.sent|
      ensures var c := ConnOf(m'.log.sent[k]);
              c.Some? && c.value < |m'.link.conns| && m'.link.conns[c.value].target == target
    {
      assert Routed(m'.link, m'.log.sent[k]);
    }
  }

  // ---------------------------------------------------------------------
  // The abandoned connection
  // ---------------------------------------------------------------------

  /** The event comes from this connection. */
  predicate From(e: Event, c: nat) {
    match e
    case Connected(d) => d == c
    case Dropped(d) => d == c
    case Arrives(d, _) => d == c
    case Fails(d) => d == c
    case _ => false
  }

  function Without(events: seq<Event>, c: nat): seq<Event> {
    if events == [] then [] else
      Without(Init(events), c) + (if From(Last(events), c) then [] else [Last(events)])
  }

  predicate Abandoned(l: Link, c: nat) {
    c < |l.conns| && !l.conns[c].attached && l.conns[c].destroyed && l.current != Some(c)
  }

  lemma {:induction false} ActAllKeepsAbandoned(m: Machine, acts: seq<Action>, c: nat)
    requires Abandoned(m.link, c)
    ensures Abandoned(ActAll(m, acts).link, c)
  {
    if acts != [] {
      ActAllKeepsAbandoned(m, Init(acts), c);
    }
  }

  lemma {:induction false} ReplayKeepsAbandoned(m: Machine, events: seq<ReadEvent>, c: nat)
    requires Abandoned(m.link, c)
    ensures Abandoned(Replay(m, events).link, c)
  {
    if events != [] {
      ReplayKeepsAbandoned(m, Init(events), c);
    }
  }

  lemma StepKeepsAbandoned(m: Machine, e: Event, c: nat)
    requires Abandoned(m.link, c)
    ensures Abandoned(Step(m, e).link, c)
  {
    match e
    case ClientWrite(data, callback, listening, acts) =>
      ActAllKeepsAbandoned(AtPush(m, data, callback), acts, c);
    case DeferredPush(acts) => if m.log.owed != [] { ActAllKeepsAbandoned(ShowOwed(m), acts, c); }
    case Uncork => ReplayKeepsAbandoned(Opened(m), m.intake.queue, c);
    case _ =>
  }

  lemma AbandonedStep(m: Machine, e: Event, c: nat)
    requires Abandoned(m.link, c) && From(e, c)
    ensures Step(m, e) == m
  {
    var conns := m.link.conns;
    assert conns[c := conns[c].(destroyed := true)] == conns;
  }

  lemma {:induction false} RunKeepsAbandoned(m: Machine, events: seq<Event>, c: nat)
    requires Abandoned(m.link, c)
    ensures Abandoned(Run(m, events).link, c)
  {
    if events != [] {
      RunKeepsAbandoned(m, Init(events), c);
      StepKeepsAbandoned(Run(m, Init(events)), Last(events), c);
    }
  }

  lemma RunSnoc(m: Machine, events: seq<Event>, e: Event)
    ensures Run(m, events + [e]) == Step(Run(m, events), e)
  {
    InitOfSnoc(events, e);
  }

  /** Erasing every later event of the abandoned connection changes nothing at all. */
  lemma {:induction false} AbandonedIsSilent(m: Machine, events: seq<Event>, c: nat)
    requires Abandoned(m.link, c)
    ensures Run(m, Without(events, c)) == Run(m, events)
  {
    if events != [] {
      var us, e := Without(Init(events), c), Last(events);
      AbandonedIsSilent(m, Init(events), c);
      if From(e, c) {
        RunKeepsAbandoned(m, Init(events), c);
        AbandonedStep(Run(m, Init(events)), e, c);
        assert Without(events, c) == us;
      } else {
        RunSnoc(m, us, e);
      }
    }
  }

  /** Retargeting abandons the passthrough connection it finds. */
  lemma RetargetSilences(m: Machine, target: Target, events: seq<Event>)
    requires m.link.current.Some? && m.link.current.value < |m.link.conns|
    ensures var m1 := DoReset(m, Some(target));
            Run(m1, Without(events, m.link.current.value)) == Run(m1, events)
  {
    AbandonedIsSilent(DoReset(m, Some(target)), events, m.link.current.value);
  }

  // ---------------------------------------------------------------------
  // A connection replaced because it was destroyed is not abandoned
  // ---------------------------------------------------------------------

  /** Attached strays are dead, and a handle that is not the current connection's is dead. */
  ghost predicate Tidy(l: Link) {
    && (forall c: nat :: Attached(l, c) && l.current != Some(c) ==> l.conns[c].destroyed)
    && (l.current.Some? ==> l.current.value < |l.conns|)
    && (l.swapped ==> l.handle.Some? && l.handle.value < |l.conns| &&
                      (l.handle == l.current || l.conns[l.handle.value].destroyed))
  }

  lemma ActKeepsTidy(m: Machine, a: Action)
    requires Tidy(m.link)
    ensures Tidy(Act(m, a).link)
  {
  }

  lemma {:induction false} ActAllKeepsTidy(m: Machine, acts: seq<Action>)
    requires Tidy(m.link)
    ensures Tidy(ActAll(m, acts).link)
  {
    if acts != [] {
      ActAllKeepsTidy(m, Init(acts));
      ActKeepsTidy(ActAll(m, Init(acts)), Last(acts));
    }
  }

  lemma CloseKeepsTidy(m: Machine, hadError: bool, origin: Origin)
    requires Tidy(m.link)
    ensures Tidy(EmitClose(m, hadError, origin).link)
  {
  }

  lemma {:induction false} ReplayKeepsTidy(m: Machine, events: seq<ReadEvent>)
    requires Tidy(m.link)
    ensures Tidy(Replay(m, events).link)
  {
    if events != [] {
      ReplayKeepsTidy(m, Init(events));
      var before := Replay(m, Init(events));
      if Last(events).RealClose? { CloseKeepsTidy(before, Last(events).hadError, Replayed); }
    }
  }

  lemma ArrivalKeepsTidy(m: Machine, e: ReadEvent)
    requires Tidy(m.link)
    ensures Tidy(OnRead(m, e).link)
  {
    if OnRead(m, e).link != m.link { CloseKeepsTidy(m, e.hadError, Forwarded); }
  }

  lemma TickKeepsTidy(m: Machine)
    requires Tidy(m.link)
    ensures Tidy(DoTick(m).link)
  {
    if DoTick(m).link != m.link { CloseKeepsTidy(m, true, Forced); }
  }

  lemma StepKeepsTidy(m: Machine, e: Event)
    requires Tidy(m.link)
    ensures Tidy(Step(m, e).link)
  {
    match e
    case ClientWrite(data, callback, listening, acts) => ActAllKeepsTidy(AtPush(m, data, callback), acts);
    case DeferredPush(acts) => if m.log.owed != [] { ActAllKeepsTidy(ShowOwed(m), acts); }
    case Perform(act) => ActKeepsTidy(m, act);
    case Uncork => ReplayKeepsTidy(Opened(m), m.intake.queue);
    case Arrives(c, read) => ArrivalKeepsTidy(m, read);
    case RunTick => TickKeepsTidy(m);
    case _ =>
  }

  /**
   Over every run, a connection whose events still reach the client is the
   current one or already destroyed; and the client's handle is the current
   connection's or a destroyed one's.
   */
  lemma {:induction false} RunIsTidy(original: Target, events: seq<Event>)
    ensures Tidy(Run(Start(original), events).link)
  {
    if events != [] {
      RunIsTidy(original, Init(events));
      StepKeepsTidy(Run(Start(original), Init(events)), Last(events));
    }
  }
}
