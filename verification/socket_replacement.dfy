/**
 A passthrough connection that dropped is replaced by the next passthrough, but not
 abandoned the way a retarget abandons one. When does that show: which handle carries
 a write, and which connection's "close" closes the client?
 */
module SocketReplacement {
  import opened Prelude
  import opened SocketMachine
  import opened SocketIsolation
  import opened SocketRetarget

  /** Whose handle the client holds: none was swapped in, the current connection's, or one's it replaced. */
  datatype HandleStory = NotSwapped | OfCurrent | OfReplaced

  /** What happened to the connections: the connects, replacements and retargets, and nothing else. */
  datatype Story = Story(handle: HandleStory, replaced: set<nat>)

  /** A new connection takes the place of one that dropped. */
  function TakePlace(l: Link, st: Story): Story {
    if l.current.None? then st
    else Story(if st.handle == OfCurrent then OfReplaced else st.handle, st.replaced + {l.current.value})
  }

  function ActStory(m: Machine, a: Action, st: Story): Story {
    match a
    case Pass(_) => if m.ctl.readyState == Pending && !Reusable(m.link) then TakePlace(m.link, st) else st
    case Reset(target) => if target.Some? && m.link.current.Some? then st.(handle := NotSwapped) else st
    case _ => st
  }

  function ActAllStory(m: Machine, acts: seq<Action>, st: Story): Story {
    if acts == [] then st else ActStory(ActAll(m, Init(acts)), Last(acts), ActAllStory(m, Init(acts), st))
  }

  function StepStory(m: Machine, e: Event, st: Story): Story {
    match e
    case ClientWrite(data, callback, listening, acts) =>
      if Buffer(m, data, callback).ctl.readyState == Pending && !listening then st
      else ActAllStory(AtPush(m, data, callback), acts, st)
    case DeferredPush(acts) => if m.log.owed == [] then st else ActAllStory(ShowOwed(m), acts, st)
    case Perform(act) => ActStory(m, act, st)
    case Connected(c) =>
      if Attached(m.link, c) && m.link.current.Some? && !m.client.destroyed then st.(handle := OfCurrent) else st
    case _ => st
  }

  function RunStory(original: Target, events: seq<Event>): Story {
    if events == [] then Story(NotSwapped, {})
    else StepStory(Run(Start(original), Init(events)), Last(events), RunStory(original, Init(events)))
  }

  // ---------------------------------------------------------------------
  // The story is what the links say
  // ---------------------------------------------------------------------

  predicate HandleTold(l: Link, st: Story) {
    && (l.swapped <==> st.handle != NotSwapped)
    && (l.swapped ==> l.current.Some? && l.handle.Some? && l.handle.value < |l.conns|)
    && (l.swapped ==> (l.handle == l.current <==> st.handle == OfCurrent))
  }

  predicate ListenersTold(l: Link, st: Story) {
    && (l.current.Some? ==> l.current.value < |l.conns| && l.current.value !in st.replaced)
    && (forall c :: c in st.replaced ==> c < |l.conns|)
    && (forall c :: 0 <= c < |l.conns| ==> (l.conns[c].attached <==> l.current == Some(c) || c in st.replaced))
  }

  predicate Told(m: Machine, st: Story) {
    && HandleTold(m.link, st) && ListenersTold(m.link, st)
    && (m.ctl.readyState == Passthrough ==> m.link.current.Some?)
  }

  lemma OpenLinkTold(l: Link, st: Story)
    requires HandleTold(l, st) && ListenersTold(l, st)
    ensures var st' := if Reusable(l) then st else TakePlace(l, st);
            HandleTold(OpenLink(l), st') && ListenersTold(OpenLink(l), st')
  {
  }

  lemma AbandonTold(l: Link, st: Story)
    requires HandleTold(l, st) && ListenersTold(l, st) && l.current.Some?
    ensures HandleTold(Abandon(l), st.(handle := NotSwapped)) && ListenersTold(Abandon(l), st.(handle := NotSwapped))
  {
  }

  lemma ActTold(m: Machine, a: Action, st: Story)
    requires Told(m, st)
    ensures Told(Act(m, a), ActStory(m, a, st))
  {
    match a
    case Pass(_) => OpenLinkTold(m.link, st);
    case Reset(target) => if target.Some? && m.link.current.Some? { AbandonTold(m.link, st); }
    case _ =>
  }

  lemma {:induction false} ActAllTold(m: Machine, acts: seq<Action>, st: Story)
    requires Told(m, st)
    ensures Told(ActAll(m, acts), ActAllStory(m, acts, st))
  {
    if acts != [] {
      ActAllTold(m, Init(acts), st);
      ActTold(ActAll(m, Init(acts)), Last(acts), ActAllStory(m, Init(acts), st));
    }
  }

  lemma WriteTold(m: Machine, e: Event, st: Story)
    requires Told(m, st) && e.ClientWrite?
    ensures Told(Step(m, e), StepStory(m, e, st))
  {
    var w, m1 := Write(WriteCount(m), e.data), Buffer(m, e.data, e.callback);
    assert Told(m1, st);
    assert Told(AtPush(m, e.data, e.callback), st);
    ActAllTold(AtPush(m, e.data, e.callback), e.acts, st);
    var m2 := Push(m1, w, e.listening, e.acts);
    assert Told(m2, StepStory(m, e, st));
    SettleKeepsLinks(m2, w, e.callback);
  }

  lemma SettleKeepsLinks(m: Machine, w: Write, callback: bool)
    ensures var m' := Settle(m, w, callback); m'.link == m.link && m'.ctl.readyState == m.ctl.readyState
  {
  }

  lemma StepTold(m: Machine, e: Event, st: Story)
    requires Told(m, st) && !Step(m, e).client.closed
    ensures Told(Step(m, e), StepStory(m, e, st))
  {
    match e
    case ClientWrite(_, _, _, _) => WriteTold(m, e, st);
    case DeferredPush(acts) => if m.log.owed != [] { ActAllTold(ShowOwed(m), acts, st); }
    case Perform(act) => ActTold(m, act, st);
    case Connected(c) =>
    case _ => if ReadsOnly(e) { ReadStepKeepsWriteSide(m, e); }
  }

  lemma {:induction false} RunTold(original: Target, events: seq<Event>)
    requires !Run(Start(original), events).client.closed
    ensures Told(Run(Start(original), events), RunStory(original, events))
  {
    if events != [] {
      var before, e := Run(Start(original), Init(events)), Last(events);
      if before.client.closed { StepStaysClosed(before, e); }
      RunTold(original, Init(events));
      StepTold(before, e, RunStory(original, Init(events)));
    }
  }

  // ---------------------------------------------------------------------
  // When it shows
  // ---------------------------------------------------------------------

  /** What a write after a passthrough verdict depends on. */
  ghost predicate SameWay(m: Machine, m': Machine) {
    && m'.ctl.readyState == m.ctl.readyState && m'.ctl.buffered == m.ctl.buffered
    && m'.link == m.link && m'.log == m.log
  }

  /** Boundaries and refused verdicts leave that alone. */
  lemma {:induction false} IdleActs(m: Machine, acts: seq<Action>)
    requires m.ctl.readyState == Passthrough && Transitions(m, acts) == 0
    ensures SameWay(m, ActAll(m, acts))
  {
    if acts != [] { IdleActs(m, Init(acts)); }
  }

  /**
   Over every run, a write that follows a passthrough verdict, and whose push changes
   nothing about that, leaves on the current connection, unless the client's handle was
   swapped in from one that was replaced since, with no connect and no retarget after that.
   */
  lemma WriteLeavesOnCurrentIff(original: Target, events: seq<Event>, e: Event)
    requires e.ClientWrite?
    requires var m := Run(Start(original), events);
             && !m.client.closed && m.ctl.readyState == Passthrough && !m.ctl.resetScheduled
             && Transitions(AtPush(m, e.data, e.callback), e.acts) == 0
    ensures var m := Run(Start(original), events);
            var sent := Step(m, e).log.sent;
            && m.link.current.Some?
            && |sent| == |m.log.sent| + 1 && sent[..|m.log.sent|] == m.log.sent
            && Last(sent).write == Write(m.log.made, e.data)
            && (ConnOf(Last(sent)) == m.link.current <==> RunStory(original, events).handle != OfReplaced)
  {
    RunTold(original, events);
    PassedWriteLeaves(Run(Start(original), events), e);
  }

  lemma {:induction false} PassedWriteLeaves(m: Machine, e: Event)
    requires e.ClientWrite? && m.ctl.readyState == Passthrough && !m.ctl.resetScheduled
    requires Transitions(AtPush(m, e.data, e.callback), e.acts) == 0
    ensures Step(m, e).log.sent == m.log.sent + [Sent(ExitRoute(m.link), Write(m.log.made, e.data), Effective(m.link))]
  {
    var w, m1 := Write(m.log.made, e.data), AtPush(m, e.data, e.callback);
    var m2 := Push(Buffer(m, e.data, e.callback), w, e.listening, e.acts);
    assert m2 == ActAll(m1, e.acts);
    IdleActs(m1, e.acts);
    assert Last(m1.ctl.buffered).write.id == w.id;
    assert IndexOf(m1.ctl.buffered, w.id) >= 0;
    assert Step(m, e) == Settle(m2, w, e.callback);
    hide ActAll, Push, Step;
  }

  /**
   Over every run, the "close" of a connection other than the current one closes the
   client exactly when that connection was replaced, never abandoned, and neither the
   cork nor the guards of the close path hold it back.
   */
  lemma StrayCloseIff(original: Target, events: seq<Event>, c: nat, hadError: bool)
    requires var m := Run(Start(original), events); !m.client.closed && m.link.current != Some(c)
    ensures var m := Run(Start(original), events);
            Step(m, Arrives(c, RealClose(hadError))).client.closed <==>
              && c in RunStory(original, events).replaced
              && !m.intake.corked && (m.client.destroyed ==> m.link.swapped) && !EndUnread(m.client)
  {
    RunTold(original, events);
  }

  /** A passthrough connection that dropped, and the one that replaced it. */
  function Replaced(original: Target): Machine {
    Step(Step(Step(Step(Step(Start(original),
      Perform(Pass(None))), Connected(0)), Dropped(0)), Perform(Reset(None))), Perform(Pass(None)))
  }

  lemma ReplacedLink(original: Target)
    ensures var m := Replaced(original);
            && m.link == Link(original, None, [Conn(original, true, true), Conn(original, false, true)], Some(1), true, Some(0))
            && m.ctl == Controller(Passthrough, [], false, false)
            && m.log.sent == [] && m.log.made == 0 && m.log.past == [Exchange([], Passed(None, 0))] && m.log.open == Exchange([], Passed(None, 0))
            && m.client == Client(false, false, false, false, false) && !m.intake.corked
  {
    assert Flush([], None, 0, original) == [];
  }

  /** Its "close" still closes the client, although another connection serves it. */
  lemma ReplacedStillCloses(original: Target)
    ensures var m := Replaced(original);
            m.link.current == Some(1) && !m.link.conns[1].destroyed && !m.client.closed &&
            Step(m, Arrives(0, RealClose(false))).client.closed
  {
    ReplacedLink(original);
  }

  /** A write made before the new connection connects leaves on the dead one's handle. */
  lemma {:induction false} ReplacedHandleIsStale(original: Target, data: Data)
    ensures var m := Step(Replaced(original), ClientWrite(data, false, true, []));
            m.link.current == Some(1) && !m.link.conns[1].destroyed && m.link.conns[0].destroyed &&
            m.log.sent == [Sent(Handle(Some(0)), Write(0, data), original)]
  {
    var m := Replaced(original);
    ReplacedLink(original);
    var m0 := AtPush(m, data, false);
    assert m0.ctl.buffered == [Entry(Write(0, data), false)];
    assert ActAll(m0, []) == m0;
    assert IndexOf(m0.ctl.buffered, 0) == 0;
    assert HandleWrite(m, data, false, true, []) == Settle(m0, Write(0, data), false);
  }
}
