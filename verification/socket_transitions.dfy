/**
 Pushing a write to the server side may make the controller change state before
 the write is settled. With any number of such changes, exactly when is the
 write's callback settled once? And when does the server side see the writes in
 the order the client made them?
 */
module SocketTransitions {
  import opened Prelude
  import opened SocketMachine
  import opened SocketIsolation

  /** The actions that changed the controller's state, in order. */
  function Taken(m: Machine, acts: seq<Action>): seq<Action> {
    if acts == [] then [] else
      Taken(m, Init(acts)) + (if Changes(ActAll(m, Init(acts)), Last(acts)) then [Last(acts)] else [])
  }

  /** The write is still buffered when a passthrough verdict is taken. */
  predicate PassesTheWrite(m: Machine, taken: seq<Action>) {
    m.ctl.readyState == Pending && taken != [] && taken[0].Pass?
  }

  predicate EndsPassing(taken: seq<Action>) {
    taken != [] && Last(taken).Pass?
  }

  /** How many times the callback of a write was acknowledged or handed to a connection. */
  function Settlements(g: Log, id: nat): nat {
    multiset(g.acked)[id] + multiset(g.delegated)[id]
  }

  predicate StateAfter(m: Machine, a: Action) {
    match a
    case Pass(_) => m.ctl.readyState == Passthrough && m.ctl.buffered == []
    case Reset(_) => m.ctl.readyState == Pending && m.ctl.buffered == []
    case Claim => m.ctl.readyState == Claimed
    case ScheduleReset => false
  }

  /** What a push starting in m0 has done by the time it has taken these actions and reached m. */
  predicate InFlight(m0: Machine, m: Machine, taken: seq<Action>, id: nat) {
    && Settlements(m.log, id) == Settlements(m0.log, id) + (if PassesTheWrite(m0, taken) then 1 else 0)
    && (taken == [] ==> m.ctl.buffered == m0.ctl.buffered && m.ctl.readyState == m0.ctl.readyState)
    && (taken != [] ==> StateAfter(m, Last(taken)))
  }

  lemma OwedSettles(m: Machine, rewrite: Option<Rewrite>, id: nat)
    requires m.ctl.readyState == Pending
    ensures Settlements(DoPass(m, rewrite).log, id) == Settlements(m.log, id) + multiset(Owed(m.ctl.buffered))[id]
  {
    assert multiset(m.log.delegated + Owed(m.ctl.buffered)) ==
           multiset(m.log.delegated) + multiset(Owed(m.ctl.buffered));
  }

  lemma {:induction false} InFlightPass(m0: Machine, m: Machine, taken: seq<Action>, rewrite: Option<Rewrite>, id: nat)
    requires m0.ctl.readyState == Pending ==> Owed(m0.ctl.buffered) == [id]
    requires InFlight(m0, m, taken, id) && m.ctl.readyState == Pending
    ensures InFlight(m0, DoPass(m, rewrite), taken + [Pass(rewrite)], id)
  {
    InitOfSnoc(taken, Pass(rewrite));
    OwedSettles(m, rewrite, id);
    assert Owed([]) == [];
    hide Owed, Settlements, Flush, OpenLink;
  }

  lemma {:induction false} InFlightAct(m0: Machine, m: Machine, taken: seq<Action>, a: Action, id: nat)
    requires m0.ctl.readyState == Pending ==> Owed(m0.ctl.buffered) == [id]
    requires InFlight(m0, m, taken, id)
    ensures InFlight(m0, Act(m, a), if Changes(m, a) then taken + [a] else taken, id)
  {
    if Changes(m, a) {
      if a.Pass? {
        hide DoPass, InFlight, Owed;
        InFlightPass(m0, m, taken, a.rewrite, id);
      } else {
        hide Owed, Settlements;
        InitOfSnoc(taken, a);
        assert Settlements(Act(m, a).log, id) == Settlements(m.log, id);
      }
    }
  }

  lemma {:induction false} PushInFlight(m0: Machine, acts: seq<Action>, id: nat)
    requires m0.ctl.readyState == Pending ==> Owed(m0.ctl.buffered) == [id]
    ensures InFlight(m0, ActAll(m0, acts), Taken(m0, acts), id)
  {
    if acts != [] {
      PushInFlight(m0, Init(acts), id);
      InFlightAct(m0, ActAll(m0, Init(acts)), Taken(m0, Init(acts)), Last(acts), id);
    }
  }

  /** Settling after the push adds one settlement unless the push ended passing through. */
  lemma SettleCounts(m0: Machine, m: Machine, taken: seq<Action>, w: Write)
    requires InFlight(m0, m, taken, w.id)
    requires m0.ctl.readyState == Passthrough ==> m0.ctl.buffered == [Entry(w, true)]
    ensures Settlements(Settle(m, w, true).log, w.id) ==
              Settlements(m.log, w.id) + (if EndsPassing(taken) then 0 else 1)
  {
    assert multiset(m.log.acked + [w.id]) == multiset(m.log.acked) + multiset{w.id};
    assert multiset(m.log.delegated + [w.id]) == multiset(m.log.delegated) + multiset{w.id};
    if m.ctl.readyState == Passthrough && taken == [] {
      assert m.ctl.buffered[0].write.id == w.id;
    }
  }

  /**
   A pushed write with a callback is settled exactly once if and only if the
   push passes the write's own exchange through exactly when it ends passing
   through: never "pass, then reset" (settled twice) nor "reset, then pass"
   (lost, neither sent nor acknowledged).
   */
  lemma SettledOnceIff(m: Machine, data: Data, acts: seq<Action>)
    requires Open(m)
    ensures var taken := Taken(AtPush(m, data, true), acts);
            var m' := HandleWrite(m, data, true, true, acts);
            Settlements(m'.log, WriteCount(m)) == Settlements(m.log, WriteCount(m)) + 1 <==>
              (PassesTheWrite(AtPush(m, data, true), taken) <==> EndsPassing(taken))
  {
    var w, m0 := Write(WriteCount(m), data), AtPush(m, data, true);
    MidBuffer(m, data, true);
    OwedInFlight(m0.log.open.writes, w, true);
    PushInFlight(m0, acts, w.id);
    SettleCounts(m0, ActAll(m0, acts), Taken(m0, acts), w);
  }

  /** One transition per push is enough. */
  lemma {:induction false} OneTransitionIsSafe(m: Machine, acts: seq<Action>)
    requires Transitions(m, acts) <= 1
    ensures |Taken(m, acts)| == Transitions(m, acts)
    ensures PassesTheWrite(m, Taken(m, acts)) <==> EndsPassing(Taken(m, acts))
  {
    if acts != [] {
      OneTransitionIsSafe(m, Init(acts));
      if Taken(m, Init(acts)) == [] { NothingTaken(m, Init(acts)); }
    }
  }

  lemma {:induction false} NothingTaken(m: Machine, acts: seq<Action>)
    requires Taken(m, acts) == []
    ensures ActAll(m, acts).ctl.readyState == m.ctl.readyState
  {
    if acts != [] {
      NothingTaken(m, Init(acts));
    }
  }

  /** A reset followed by a passthrough inside one push: the write is lost. */
  lemma ResetThenPassLosesTheWrite(original: Target)
    ensures var m := Run(Start(original), [Perform(Claim)]);
            var m' := HandleWrite(m, ["GET"], true, true, [Reset(None), Pass(None)]);
            Open(m) && m'.log.sent == [] && Settlements(m'.log, 0) == 0 && m'.ctl.buffered == []
  {
    var m := Run(Start(original), [Perform(Claim)]);
    StartIsOpen(original);
    assert Run(Start(original), []) == Start(original);
    ActKeepsOpen(Start(original), Claim);
    var m0 := AtPush(m, ["GET"], true);
    assert ActAll(m0, [Reset(None)]) == Act(ActAll(m0, []), Reset(None));
    assert Init([Reset(None), Pass(None)]) == [Reset(None)];
    assert Flush([], None, 0, original) == [];
  }

  // ---------------------------------------------------------------------
  // The order in which the server side sees the writes
  // ---------------------------------------------------------------------

  /** A write is pushed at once although older writes still wait for the next tick. */
  predicate Overtakes(m: Machine, e: Event) {
    Immediate(m, e) && m.log.owed != []
  }

  predicate SomeOvertakes(m: Machine, events: seq<Event>) {
    events != [] && (SomeOvertakes(m, Init(events)) || Overtakes(Run(m, Init(events)), Last(events)))
  }

  /** The server side sees this write at once. */
  predicate Immediate(m: Machine, e: Event) {
    e.ClientWrite? && (e.listening || Buffer(m, e.data, e.callback).ctl.readyState != Pending)
  }

  /** How one step moves the writes: made, shown, or put off to the next tick. */
  ghost predicate Moves(g: Log, g': Log, made: Option<Write>, immediate: bool, ticked: bool) {
    && g'.made == g.made + (if made.Some? then 1 else 0)
    && Writes(g') == (if made.Some? then Writes(g) + [made.value] else Writes(g))
    && (made.Some? && immediate ==> g'.shown == g.shown + [made.value] && g'.owed == g.owed)
    && (made.Some? && !immediate ==> g'.shown == g.shown && g'.owed == g.owed + [made.value])
    && (made.None? && ticked && g.owed != [] ==> g'.shown == g.shown + [g.owed[0]] && g'.owed == g.owed[1..])
    && (made.None? && !(ticked && g.owed != []) ==> g'.shown == g.shown && g'.owed == g.owed)
  }

  function Made(m: Machine, e: Event): Option<Write> {
    if e.ClientWrite? then Some(Write(WriteCount(m), e.data)) else None
  }

  lemma SettleRecords(m: Machine, w: Write, callback: bool)
    ensures var g' := Settle(m, w, callback).log;
            Writes(g') == Writes(m.log) + [w] && g'.made == m.log.made + 1 && g'.shown == m.log.shown && g'.owed == m.log.owed
  {
    assert Writes(Record(m.log, w, callback)) == Writes(m.log) + [w];
  }

  lemma WriteMoves(m: Machine, e: Event)
    requires e.ClientWrite?
    ensures Moves(m.log, Step(m, e).log, Made(m, e), Immediate(m, e), false)
  {
    var w, b := Write(WriteCount(m), e.data), Buffer(m, e.data, e.callback);
    LogsOfReset(m.log);
    assert Writes(b.log) == Writes(m.log);
    ActAllKeepsWrites(AtPush(m, e.data, e.callback), e.acts);
    SettleRecords(Push(b, w, e.listening, e.acts), w, e.callback);
  }

  lemma StepMoves(m: Machine, e: Event)
    ensures Moves(m.log, Step(m, e).log, Made(m, e), Immediate(m, e), e.DeferredPush?)
  {
    match e
    case ClientWrite(data, callback, listening, acts) => WriteMoves(m, e);
    case DeferredPush(acts) => if m.log.owed != [] { ActAllKeepsWrites(ShowOwed(m), acts); }
    case Perform(act) => ActKeepsWrites(m, act);
    case _ => if ReadsOnly(e) { ReadStepKeepsWriteSide(m, e); }
  }

  lemma MovesKeepBalance(g: Log, g': Log, made: Option<Write>, immediate: bool, ticked: bool)
    requires Moves(g, g', made, immediate, ticked)
    requires multiset(g.shown) + multiset(g.owed) == multiset(Writes(g))
    ensures multiset(g'.shown) + multiset(g'.owed) == multiset(Writes(g'))
  {
    if made.Some? {
      var w := made.value;
      assert multiset(g.shown + [w]) == multiset(g.shown) + multiset{w};
      assert multiset(g.owed + [w]) == multiset(g.owed) + multiset{w};
      assert multiset(Writes(g) + [w]) == multiset(Writes(g)) + multiset{w};
    } else if ticked && g.owed != [] {
      assert g.owed == [g.owed[0]] + g.owed[1..];
      assert multiset(g.shown + [g.owed[0]]) == multiset(g.shown) + multiset{g.owed[0]};
    }
  }

  lemma {:induction false} RunRecords(original: Target, events: seq<Event>)
    ensures Writes(Run(Start(original), events).log) == WritesOf(events) && Numbered(WritesOf(events))
    ensures Run(Start(original), events).log.made == |WritesOf(events)|
  {
    if events != [] {
      RunRecords(original, Init(events));
      hide Step, Start, Writes;
      StepMoves(Run(Start(original), Init(events)), Last(events));
    }
  }

  lemma {:induction false} RunKeepsBalance(original: Target, events: seq<Event>)
    ensures var g := Run(Start(original), events).log;
            multiset(g.shown) + multiset(g.owed) == multiset(Writes(g))
  {
    if events != [] {
      var m, e := Run(Start(original), Init(events)), Last(events);
      RunKeepsBalance(original, Init(events));
      StepMoves(m, e);
      MovesKeepBalance(m.log, Step(m, e).log, Made(m, e), Immediate(m, e), e.DeferredPush?);
    }
  }

  /** Whatever happens, every client write is shown to the server side exactly once, or still owed to it. */
  lemma ShownExactlyOnce(original: Target, events: seq<Event>)
    ensures var g := Run(Start(original), events).log;
            multiset(g.shown) + multiset(g.owed) == multiset(WritesOf(events))
    ensures forall w: Write :: multiset(WritesOf(events))[w] <= 1
  {
    RunRecords(original, events);
    RunKeepsBalance(original, events);
    forall w: Write ensures multiset(WritesOf(events))[w] <= 1 {
      NumberedAreDistinct(WritesOf(events), w);
    }
  }

  lemma {:induction false} NumberedAreDistinct(ws: seq<Write>, w: Write)
    requires Numbered(ws)
    ensures multiset(ws)[w] <= 1 && (w.id >= |ws| ==> multiset(ws)[w] == 0)
  {
    if ws != [] {
      InitLast(ws);
      NumberedAreDistinct(Init(ws), w);
      assert multiset(Init(ws) + [Last(ws)]) == multiset(Init(ws)) + multiset{Last(ws)};
    }
  }

  lemma OwedAreOlder(original: Target, events: seq<Event>)
    ensures var m := Run(Start(original), events);
            forall i :: 0 <= i < |m.log.owed| ==> m.log.owed[i].id < WriteCount(m)
  {
    var m := Run(Start(original), events);
    RunRecords(original, events);
    RunKeepsBalance(original, events);
    forall i | 0 <= i < |m.log.owed| ensures m.log.owed[i].id < WriteCount(m) {
      assert m.log.owed[i] in multiset(m.log.owed);
      assert m.log.owed[i] in multiset(WritesOf(events));
    }
  }

  /** The server side sees the writes in client order if and only if no write overtakes a deferred one. */
  lemma {:induction false} ShownInOrderIff(original: Target, events: seq<Event>)
    ensures var m := Run(Start(original), events);
            m.log.shown + m.log.owed == WritesOf(events) <==> !SomeOvertakes(Start(original), events)
  {
    RunRecords(original, events);
    if events != [] {
      var m, e := Run(Start(original), Init(events)), Last(events);
      ShownInOrderIff(original, Init(events));
      RunRecords(original, Init(events));
      RunKeepsBalance(original, Init(events));
      assert |multiset(m.log.shown) + multiset(m.log.owed)| == |multiset(Writes(m.log))|;
      OwedAreOlder(original, Init(events));
      StepMoves(m, e);
      MovesKeepOrder(m.log, Step(m, e).log, Made(m, e), Immediate(m, e), e.DeferredPush?);
    }
  }

  lemma MovesKeepOrder(g: Log, g': Log, made: Option<Write>, immediate: bool, ticked: bool)
    requires Moves(g, g', made, immediate, ticked)
    requires |g.shown| + |g.owed| == |Writes(g)|
    requires made.Some? ==> forall i :: 0 <= i < |g.owed| ==> g.owed[i].id < made.value.id
    ensures g'.shown + g'.owed == Writes(g') <==>
              g.shown + g.owed == Writes(g) && !(made.Some? && immediate && g.owed != [])
  {
    if made.Some? {
      OneMoreInOrder(g.shown, g.owed, Writes(g), made.value);
      assert g'.shown + g'.owed ==
             if immediate then (g.shown + [made.value]) + g.owed else g.shown + (g.owed + [made.value]);
    } else if ticked && g.owed != [] {
      assert g'.shown + g'.owed == g.shown + g.owed;
    }
  }

  lemma OneMoreInOrder(shown: seq<Write>, owed: seq<Write>, ws: seq<Write>, w: Write)
    requires forall i :: 0 <= i < |owed| ==> owed[i].id < w.id
    requires |shown| + |owed| == |ws|
    ensures shown + (owed + [w]) == ws + [w] <==> shown + owed == ws
    ensures (shown + [w]) + owed == ws + [w] <==> shown + owed == ws && owed == []
  {
    assert shown + (owed + [w]) == (shown + owed) + [w];
    InitOfSnoc(shown + owed, w);
    InitOfSnoc(ws, w);
    if owed != [] {
      assert ((shown + [w]) + owed)[|ws|] == Last(owed);
      assert (ws + [w])[|ws|] == w;
    }
  }

  /** Made while nobody listens yet, and made once somebody does: the second write is seen first. */
  lemma {:induction false} WriteOvertakes(original: Target, first: Data, second: Data)
    ensures var deferred := ClientWrite(first, false, false, []);
            var events := [deferred, ClientWrite(second, false, true, []), DeferredPush([])];
            Run(Start(original), events).log.shown == [Write(1, second), Write(0, first)]
  {
    var e0, e1 := ClientWrite(first, false, false, []), ClientWrite(second, false, true, []);
    var events := [e0, e1, DeferredPush([])];
    var m0 := Start(original);
    var m1 := Step(m0, e0);
    var m2 := Step(m1, e1);
    hide Step;
    DeferredWrite(m0, e0);
    ImmediateWrite(m1, e1);
    DeferredShow(m2);
    assert Init([e0]) == [] && Run(m0, [e0]) == Step(Run(m0, []), e0);
    assert Init([e0, e1]) == [e0] && Run(m0, [e0, e1]) == m2;
    assert Init(events) == [e0, e1] && Run(m0, events) == Step(m2, DeferredPush([]));
  }

  lemma {:induction false} DeferredWrite(m: Machine, e: Event)
    requires m.ctl.readyState == Pending && e.ClientWrite? && !e.listening
    ensures var m' := Step(m, e);
            && m'.ctl.readyState == Pending && m'.log.made == m.log.made + 1
            && m'.log.owed == m.log.owed + [Write(m.log.made, e.data)] && m'.log.shown == m.log.shown
  {
  }

  lemma {:induction false} ImmediateWrite(m: Machine, e: Event)
    requires e.ClientWrite? && e.listening && e.acts == []
    ensures var m' := Step(m, e);
            m'.log.owed == m.log.owed && m'.log.shown == m.log.shown + [Write(m.log.made, e.data)]
  {
  }

  lemma {:induction false} DeferredShow(m: Machine)
    requires m.log.owed != []
    ensures Step(m, DeferredPush([])).log.shown == m.log.shown + [m.log.owed[0]]
  {
  }
}
