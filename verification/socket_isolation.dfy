/**
 Exchange isolation: over every run, until the client socket closes, the writes
 handed to real connections are exactly the writes of the passed-through
 exchanges, each once and in order, and every write's callback is settled once.
 */
module SocketIsolation {
  import opened Prelude
  import opened SocketMachine

  /** The transitions a controller in this state would actually take. */
  predicate Changes(m: Machine, a: Action) {
    match a
    case Claim => m.ctl.readyState == Pending
    case Pass(_) => m.ctl.readyState == Pending
    case Reset(_) => m.ctl.readyState != Pending
    case ScheduleReset => false
  }

  function Transitions(m: Machine, acts: seq<Action>): nat {
    if acts == [] then 0 else
      Transitions(m, Init(acts)) + (if Changes(ActAll(m, Init(acts)), Last(acts)) then 1 else 0)
  }

  /** The machine a push starts from: the write is buffered and shown. */
  function AtPush(m: Machine, data: Data, callback: bool): Machine {
    var m1 := Buffer(m, data, callback);
    m1.(log := m1.log.(shown := m1.log.shown + [Write(WriteCount(m), data)]))
  }

  /** At most one transition happens while a write is pushed to the server side. */
  predicate Disciplined(m: Machine, e: Event) {
    e.ClientWrite? ==> Transitions(AtPush(m, e.data, e.callback), e.acts) <= 1
  }

  predicate DisciplinedRun(m: Machine, events: seq<Event>) {
    events == [] || (DisciplinedRun(m, Init(events)) && Disciplined(Run(m, Init(events)), Last(events)))
  }

  /** What the client wrote, read off the events alone. */
  function WritesOf(events: seq<Event>): seq<Write> {
    if events == [] then [] else
      var before := WritesOf(Init(events));
      match Last(events)
      case ClientWrite(data, _, _, _) => before + [Write(|before|, data)]
      case _ => before
  }

  /** The numbers of the client writes that came with a callback. */
  function CallbacksOf(events: seq<Event>): seq<nat> {
    if events == [] then [] else
      var before := CallbacksOf(Init(events));
      match Last(events)
      case ClientWrite(_, callback, _, _) => if callback then before + [|WritesOf(Init(events))|] else before
      case _ => before
  }

  // ---------------------------------------------------------------------
  // Invariants
  // ---------------------------------------------------------------------

  predicate Linked(l: Link) {
    && (l.current.Some? ==> l.current.value < |l.conns| && l.conns[l.current.value].target == Effective(l))
    && (l.swapped ==>
          && l.current.Some? && l.handle.Some? && l.handle.value < |l.conns|
          && l.conns[l.handle.value].target == Effective(l))
  }

  /** The connection a write was handed to has the target that was wanted then. */
  predicate Routed(l: Link, s: Sent) {
    match s.route
    case Direct(c) => c < |l.conns| && l.conns[c].target == s.wanted
    case Handle(owner) => owner.Some? && owner.value < |l.conns| && l.conns[owner.value].target == s.wanted
  }

  predicate AllRouted(l: Link, sent: seq<Sent>) {
    forall i :: 0 <= i < |sent| ==> Routed(l, sent[i])
  }

  predicate VerdictMatches(m: Machine) {
    match m.ctl.readyState
    case Pending => m.log.open.verdict.Undecided?
    case Claimed => m.log.open.verdict.Mocked?
    case Passthrough => m.log.open.verdict.Passed?
  }

  function Writes(g: Log): seq<Write> {
    AllWrites(g.past) + g.open.writes
  }

  predicate Numbered(ws: seq<Write>) {
    forall i :: 0 <= i < |ws| ==> ws[i].id == i
  }

  predicate Counted(g: Log) {
    g.made == |Writes(g)|
  }

  predicate Below(buffered: seq<Entry>, bound: nat) {
    forall i :: 0 <= i < |buffered| ==> buffered[i].write.id < bound
  }

  function Acked(ws: seq<Write>): seq<Entry> {
    seq(|ws|, i requires 0 <= i < |ws| => Entry(ws[i], false))
  }

  predicate Held(x: Exchange, extra: nat) {
    x.verdict.Passed? ==> x.verdict.held <= |x.writes| + extra
  }

  /** Between events: the buffer matches the open exchange. */
  predicate OpenState(m: Machine) {
    && VerdictMatches(m) && Held(m.log.open, 0)
    && (m.ctl.readyState == Pending ==> m.ctl.buffered == Acked(m.log.open.writes))
    && (m.ctl.readyState == Claimed ==> Below(m.ctl.buffered, WriteCount(m)))
    && (m.ctl.readyState == Passthrough ==> m.ctl.buffered == [] && m.link.current.Some?)
  }

  /** Between events: what was handed over, and which callbacks are settled. */
  predicate OpenLedger(g: Log) {
    && Payload(g.sent) == AllOnWire(g.past) + OnWire(g.open)
    && multiset(g.acked) + multiset(g.delegated) == multiset(g.callbacks)
  }

  /** The state between events, until the client socket closes. */
  predicate Open(m: Machine) {
    && !m.client.closed
    && Linked(m.link) && AllRouted(m.link, m.log.sent)
    && Numbered(Writes(m.log)) && Counted(m.log)
    && OpenState(m) && OpenLedger(m.log)
  }

  /** The buffer ends with the write in flight and holds it nowhere else. */
  predicate EndsWith(buffered: seq<Entry>, w: Write, callback: bool) {
    buffered != [] && Last(buffered) == Entry(w, callback) && Below(Init(buffered), w.id)
  }

  /** The write in flight has been flushed by a verdict taken during its own push. */
  predicate FlushedNow(m: Machine, used: bool) {
    used && m.ctl.readyState == Passthrough
  }

  /** During a push: the connections and the numbering. */
  predicate MidLinks(m: Machine, w: Write) {
    && !m.client.closed
    && Linked(m.link) && AllRouted(m.link, m.log.sent)
    && Numbered(Writes(m.log)) && Counted(m.log) && w.id == WriteCount(m)
  }

  /** During a push: the buffer; "used" says the one transition already happened. */
  predicate MidState(m: Machine, w: Write, callback: bool, used: bool) {
    && VerdictMatches(m)
    && Held(m.log.open, if FlushedNow(m, used) then 1 else 0)
    && (m.ctl.readyState == Pending ==>
          if used then m.ctl.buffered == [] && m.log.open.writes == []
          else m.ctl.buffered == Acked(m.log.open.writes) + [Entry(w, callback)])
    && (m.ctl.readyState == Claimed ==>
          EndsWith(m.ctl.buffered, w, callback) || (used && m.ctl.buffered == []))
    && (m.ctl.readyState == Passthrough ==>
          m.link.current.Some? && m.ctl.buffered == if used then [] else [Entry(w, callback)])
  }

  /** During a push: what was handed over, and which callbacks are settled. */
  predicate MidLedger(m: Machine, w: Write, callback: bool, used: bool) {
    && Payload(m.log.sent) ==
         AllOnWire(m.log.past) +
         OnWire(if FlushedNow(m, used) then m.log.open.(writes := m.log.open.writes + [w]) else m.log.open)
    && multiset(m.log.acked) + multiset(m.log.delegated) ==
         multiset(m.log.callbacks) + (if FlushedNow(m, used) && callback then multiset{w.id} else multiset{})
  }

  predicate Mid(m: Machine, w: Write, callback: bool, used: bool) {
    MidLinks(m, w) && MidState(m, w, callback, used) && MidLedger(m, w, callback, used)
  }

  // ---------------------------------------------------------------------
  // Small facts
  // ---------------------------------------------------------------------

  /** One more callback, settled on either side, keeps the ledger balanced. */
  lemma SettleOne(a: seq<nat>, b: seq<nat>, all: seq<nat>, x: nat)
    requires multiset(a) + multiset(b) == multiset(all)
    ensures multiset(a + [x]) + multiset(b) == multiset(all + [x])
    ensures multiset(a) + multiset(b + [x]) == multiset(all + [x])
    ensures multiset(a) + multiset(b + [x]) == multiset(all) + multiset{x}
  {
    assert multiset(a + [x]) == multiset(a) + multiset{x};
    assert multiset(b + [x]) == multiset(b) + multiset{x};
    assert multiset(all + [x]) == multiset(all) + multiset{x};
  }

  lemma PayloadOfConcat(a: seq<Sent>, b: seq<Sent>)
    ensures Payload(a + b) == Payload(a) + Payload(b)
  {
  }

  lemma OwedOfConcat(b: seq<Entry>, e: Entry)
    ensures Owed(b + [e]) == Owed(b) + (if e.callback then [e.write.id] else [])
  {
    InitOfSnoc(b, e);
  }

  lemma {:induction false} OwedOfAcked(ws: seq<Write>)
    ensures Owed(Acked(ws)) == []
  {
    if ws != [] {
      assert Acked(ws) == Acked(Init(ws)) + [Entry(Last(ws), false)];
      OwedOfAcked(Init(ws));
      OwedOfConcat(Acked(Init(ws)), Entry(Last(ws), false));
    }
  }

  /** Of a pending exchange's buffer only the write in flight is still owed its callback. */
  lemma OwedInFlight(ws: seq<Write>, w: Write, callback: bool)
    ensures Owed(Acked(ws) + [Entry(w, callback)]) == if callback then [w.id] else []
  {
    OwedOfAcked(ws);
    OwedOfConcat(Acked(ws), Entry(w, callback));
  }

  /** Flushing the buffer hands over what the exchange puts on the wire. */
  lemma FlushPayload(b: seq<Entry>, rewrite: Option<Rewrite>, conn: nat, wanted: Target, ws: seq<Write>)
    requires |b| == |ws| && forall i :: 0 <= i < |b| ==> b[i].write == ws[i]
    ensures Payload(Flush(b, rewrite, conn, wanted)) == OnWire(Exchange(ws, Passed(rewrite, |b|)))
  {
  }

  lemma AppendToWire(x: Exchange, w: Write)
    requires Held(x, 0)
    ensures x.verdict.Passed? ==> OnWire(x.(writes := x.writes + [w])) == OnWire(x) + [w]
    ensures !x.verdict.Passed? ==> OnWire(x.(writes := x.writes + [w])) == OnWire(x)
  {
  }

  lemma AllOnWireSnoc(past: seq<Exchange>, x: Exchange)
    ensures AllOnWire(past + [x]) == AllOnWire(past) + OnWire(x)
    ensures AllWrites(past + [x]) == AllWrites(past) + x.writes
  {
    InitOfSnoc(past, x);
  }

  lemma OpenLinkKeeps(l: Link, sent: seq<Sent>)
    requires Linked(l) && AllRouted(l, sent)
    ensures Linked(OpenLink(l)) && AllRouted(OpenLink(l), sent)
    ensures OpenLink(l).current == Some(NextConn(l)) && NextConn(l) < |OpenLink(l).conns|
    ensures OpenLink(l).conns[NextConn(l)].target == Effective(l)
  {
  }

  lemma PassKeepsLinks(m: Machine, rewrite: Option<Rewrite>)
    requires Linked(m.link) && AllRouted(m.link, m.log.sent)
    ensures Linked(DoPass(m, rewrite).link) && AllRouted(DoPass(m, rewrite).link, DoPass(m, rewrite).log.sent)
  {
    OpenLinkKeeps(m.link, m.log.sent);
  }

  lemma LogsOfReset(g: Log)
    ensures AllOnWire(g.past + [g.open]) + OnWire(Exchange([], Undecided)) == AllOnWire(g.past) + OnWire(g.open)
    ensures AllWrites(g.past + [g.open]) + [] == Writes(g)
  {
    AllOnWireSnoc(g.past, g.open);
  }

  // ---------------------------------------------------------------------
  // One push
  // ---------------------------------------------------------------------

  /** A passthrough verdict puts exactly the buffered writes on the wire, after all earlier ones. */
  lemma PassPayload(m: Machine, rewrite: Option<Rewrite>, ws: seq<Write>)
    requires m.ctl.readyState == Pending && |m.ctl.buffered| == |ws| && m.log.open.verdict.Undecided?
    requires forall i :: 0 <= i < |ws| ==> m.ctl.buffered[i].write == ws[i]
    requires Payload(m.log.sent) == AllOnWire(m.log.past) + OnWire(m.log.open)
    ensures Payload(DoPass(m, rewrite).log.sent) ==
              AllOnWire(m.log.past) + OnWire(Exchange(ws, Passed(rewrite, |ws|)))
  {
    var flushed := Flush(m.ctl.buffered, rewrite, NextConn(m.link), Effective(m.link));
    FlushPayload(m.ctl.buffered, rewrite, NextConn(m.link), Effective(m.link), ws);
    PayloadOfConcat(m.log.sent, flushed);
    assert DoPass(m, rewrite).log.sent == m.log.sent + flushed;
    assert Payload(m.log.sent) == AllOnWire(m.log.past);
  }

  lemma PassDelegates(m: Machine, rewrite: Option<Rewrite>, w: Write, callback: bool)
    requires m.ctl.readyState == Pending
    requires m.ctl.buffered == Acked(m.log.open.writes) + [Entry(w, callback)]
    requires multiset(m.log.acked) + multiset(m.log.delegated) == multiset(m.log.callbacks)
    ensures multiset(m.log.acked) + multiset(DoPass(m, rewrite).log.delegated) ==
              multiset(m.log.callbacks) + (if callback then multiset{w.id} else multiset{})
  {
    OwedInFlight(m.log.open.writes, w, callback);
    SettleOne(m.log.acked, m.log.delegated, m.log.callbacks, w.id);
    assert DoPass(m, rewrite).log.delegated == m.log.delegated + (if callback then [w.id] else []);
  }

  lemma MidPassState(m: Machine, rewrite: Option<Rewrite>, w: Write, callback: bool)
    requires MidState(m, w, callback, false) && m.ctl.readyState == Pending
    ensures MidState(DoPass(m, rewrite), w, callback, true)
  {
  }

  lemma MidPassLedger(m: Machine, rewrite: Option<Rewrite>, w: Write, callback: bool)
    requires MidState(m, w, callback, false) && MidLedger(m, w, callback, false) && m.ctl.readyState == Pending
    ensures MidLedger(DoPass(m, rewrite), w, callback, true)
  {
    var m', ws := DoPass(m, rewrite), m.log.open.writes + [w];
    assert Payload(m'.log.sent) == AllOnWire(m.log.past) + OnWire(Exchange(ws, Passed(rewrite, |ws|))) by {
      PassPayload(m, rewrite, ws);
    }
    assert m'.log.open.(writes := ws) == Exchange(ws, Passed(rewrite, |ws|));
    PassDelegates(m, rewrite, w, callback);
  }

  lemma MidPass(m: Machine, rewrite: Option<Rewrite>, w: Write, callback: bool)
    requires Mid(m, w, callback, false) && m.ctl.readyState == Pending
    ensures Mid(DoPass(m, rewrite), w, callback, true)
  {
    PassKeepsLinks(m, rewrite);
    MidPassState(m, rewrite, w, callback);
    MidPassLedger(m, rewrite, w, callback);
  }

  lemma RetargetKeepsLinks(l: Link, target: Option<Target>, sent: seq<Sent>)
    requires Linked(l) && AllRouted(l, sent)
    ensures Linked(Retarget(l, target)) && AllRouted(Retarget(l, target), sent)
  {
  }

  lemma MidClaim(m: Machine, w: Write, callback: bool)
    requires Mid(m, w, callback, false) && m.ctl.readyState == Pending
    ensures Mid(DoClaim(m), w, callback, true)
  {
    var b := m.ctl.buffered;
    assert Init(b) == Acked(m.log.open.writes);
    AckedBelow(m, m.log.open.writes);
  }

  lemma MidReset(m: Machine, target: Option<Target>, w: Write, callback: bool, used: bool)
    requires Mid(m, w, callback, used) && !(used && m.ctl.readyState != Pending)
    ensures Mid(DoReset(m, target), w, callback, used || m.ctl.readyState != Pending)
  {
    RetargetKeepsLinks(m.link, target, m.log.sent);
    LogsOfReset(m.log);
  }

  /** The writes of the open exchange were numbered before the next one. */
  lemma AckedBelow(m: Machine, ws: seq<Write>)
    requires Numbered(Writes(m.log)) && Counted(m.log) && ws == m.log.open.writes
    ensures Below(Acked(ws), WriteCount(m))
  {
    forall j | 0 <= j < |ws| ensures ws[j].id < WriteCount(m) {
      assert ws[j] == Writes(m.log)[|AllWrites(m.log.past)| + j];
    }
  }

  lemma {:induction false} MidAll(m: Machine, acts: seq<Action>, w: Write, callback: bool)
    requires Mid(m, w, callback, false) && Transitions(m, acts) <= 1
    ensures Mid(ActAll(m, acts), w, callback, Transitions(m, acts) == 1)
  {
    if acts != [] {
      MidAll(m, Init(acts), w, callback);
      var m1, a, used := ActAll(m, Init(acts)), Last(acts), Transitions(m, Init(acts)) == 1;
      match a
      case Claim => if Changes(m1, a) { MidClaim(m1, w, callback); }
      case Pass(rewrite) => if Changes(m1, a) { MidPass(m1, rewrite, w, callback); }
      case Reset(target) => MidReset(m1, target, w, callback, used);
      case ScheduleReset =>
    }
  }

  /** A reset between events, by a boundary or on its own, leaves the state open. */
  lemma ResetKeepsOpen(m: Machine, target: Option<Target>)
    requires Open(m)
    ensures Open(DoReset(m, target)) && WriteCount(DoReset(m, target)) == WriteCount(m)
  {
    RetargetKeepsLinks(m.link, target, m.log.sent);
    LogsOfReset(m.log);
  }

  function Appended(m: Machine, w: Write, callback: bool): Machine {
    m.(ctl := m.ctl.(buffered := m.ctl.buffered + [Entry(w, callback)]))
  }

  lemma AppendedState(m: Machine, w: Write, callback: bool)
    requires OpenState(m) && w.id == WriteCount(m)
    ensures MidState(Appended(m, w, callback), w, callback, false)
  {
    InitOfSnoc(m.ctl.buffered, Entry(w, callback));
  }

  lemma MidBuffer(m: Machine, data: Data, callback: bool)
    requires Open(m)
    ensures Mid(Buffer(m, data, callback), Write(WriteCount(m), data), callback, false)
  {
    var w, m1 := Write(WriteCount(m), data), if m.ctl.resetScheduled then DoReset(m, None) else m;
    assert Buffer(m, data, callback) == Appended(m1, w, callback);
    ResetKeepsOpen(m, None);
    hide DoReset, Linked, AllRouted, Numbered, OpenState, MidState, Buffer;
    AppendedState(m1, w, callback);
  }

  lemma IndexAtEnd(b: seq<Entry>, w: Write, callback: bool)
    requires EndsWith(b, w, callback)
    ensures IndexOf(b, w.id) == |b| - 1
  {
    assert b[|b| - 1].write.id == w.id;
    forall j | 0 <= j < |b| - 1 ensures b[j].write.id != w.id {
      assert Init(b)[j] == b[j];
    }
  }

  /** Acknowledging a write settles its callback; nothing goes out. */
  lemma AcknowledgeKeepsLedger(g: Log, w: Write, callback: bool)
    requires OpenLedger(g) && !g.open.verdict.Passed?
    ensures OpenLedger(Acknowledge(Record(g, w, callback), w.id, callback))
  {
    SettleOne(g.acked, g.delegated, g.callbacks, w.id);
  }

  lemma SettlePendingBuffer(m: Machine, w: Write, callback: bool, used: bool)
    requires MidLinks(m, w) && MidState(m, w, callback, used) && m.ctl.readyState == Pending
    ensures Settle(m, w, callback).ctl.buffered == Acked(m.log.open.writes + [w])
  {
    var b, ws := m.ctl.buffered, m.log.open.writes;
    if used {
      assert IndexOf([], w.id) == -1;
    } else {
      AckedBelow(m, ws);
      assert Init(b) == Acked(ws);
      IndexAtEnd(b, w, callback);
    }
  }

  lemma SettlePending(m: Machine, w: Write, callback: bool, used: bool)
    requires Mid(m, w, callback, used) && m.ctl.readyState == Pending
    ensures Open(Settle(m, w, callback))
  {
    RecordedWrites(m.log, w, callback);
    AcknowledgeKeepsLedger(m.log, w, callback);
    SettlePendingBuffer(m, w, callback, used);
  }

  lemma SettleClaimedBuffer(m: Machine, w: Write, callback: bool, used: bool)
    requires MidState(m, w, callback, used) && m.ctl.readyState == Claimed
    ensures Below(Settle(m, w, callback).ctl.buffered, w.id)
  {
    var b := m.ctl.buffered;
    if b != [] {
      IndexAtEnd(b, w, callback);
      assert RemoveAt(b, |b| - 1) == Init(b);
    } else {
      assert IndexOf([], w.id) == -1;
    }
  }

  lemma SettleClaimed(m: Machine, w: Write, callback: bool, used: bool)
    requires Mid(m, w, callback, used) && m.ctl.readyState == Claimed
    ensures Open(Settle(m, w, callback))
  {
    RecordedWrites(m.log, w, callback);
    AcknowledgeKeepsLedger(m.log, w, callback);
    SettleClaimedBuffer(m, w, callback, used);
    hide Linked, AllRouted, Numbered, IndexOf, RemoveAt, EndsWith;
  }

  /** The write was flushed by the verdict: only the records change. */
  lemma SettleFlushed(m: Machine, w: Write, callback: bool)
    requires Mid(m, w, callback, true) && m.ctl.readyState == Passthrough
    ensures Open(Settle(m, w, callback))
  {
    RecordedWrites(m.log, w, callback);
    assert multiset(m.log.callbacks + [w.id]) == multiset(m.log.callbacks) + multiset{w.id};
  }

  /** The write follows an earlier passthrough verdict. */
  lemma SettleFollowing(m: Machine, w: Write, callback: bool)
    requires Mid(m, w, callback, false) && m.ctl.readyState == Passthrough
    ensures Open(Settle(m, w, callback))
  {
    var s := Sent(ExitRoute(m.link), w, Effective(m.link));
    RecordedWrites(m.log, w, callback);
    AppendToWire(m.log.open, w);
    IndexAtEnd(m.ctl.buffered, w, callback);
    PayloadOfConcat(m.log.sent, [s]);
    SettleOne(m.log.acked, m.log.delegated, m.log.callbacks, w.id);
    assert Routed(m.link, s);
  }

  lemma RecordedWrites(g: Log, w: Write, callback: bool)
    requires Numbered(Writes(g)) && w.id == |Writes(g)|
    ensures Writes(Record(g, w, callback)) == Writes(g) + [w]
    ensures Numbered(Writes(Record(g, w, callback)))
  {
    assert Writes(Record(g, w, callback)) == Writes(g) + [w];
  }

  lemma {:induction false} SettleOpens(m: Machine, w: Write, callback: bool, used: bool)
    requires Mid(m, w, callback, used)
    ensures Open(Settle(m, w, callback))
    ensures Writes(Settle(m, w, callback).log) == Writes(m.log) + [w]
    ensures Settle(m, w, callback).log.callbacks == m.log.callbacks + (if callback then [w.id] else [])
  {
    RecordedWrites(m.log, w, callback);
    match m.ctl.readyState
    case Pending => SettlePending(m, w, callback, used);
    case Claimed => SettleClaimed(m, w, callback, used);
    case Passthrough => if used { SettleFlushed(m, w, callback); } else { SettleFollowing(m, w, callback); }
  }

  /** After the push, and before the write is settled. */
  lemma PushIsMid(m: Machine, data: Data, callback: bool, listening: bool, acts: seq<Action>) returns (used: bool)
    requires Open(m) && Transitions(AtPush(m, data, callback), acts) <= 1
    ensures var w := Write(WriteCount(m), data);
            var p := Push(Buffer(m, data, callback), w, listening, acts);
            Mid(p, w, callback, used) && Writes(p.log) == Writes(m.log) && p.log.callbacks == m.log.callbacks
  {
    var w, b := Write(WriteCount(m), data), Buffer(m, data, callback);
    MidBuffer(m, data, callback);
    LogsOfReset(m.log);
    assert Writes(b.log) == Writes(m.log);
    if b.ctl.readyState == Pending && !listening {
      used := false;
    } else {
      used := Transitions(AtPush(m, data, callback), acts) == 1;
      MidAll(AtPush(m, data, callback), acts, w, callback);
      ActAllKeepsWrites(AtPush(m, data, callback), acts);
    }
  }

  lemma {:induction false} WriteKeepsOpen(m: Machine, data: Data, callback: bool, listening: bool, acts: seq<Action>)
    requires Open(m) && Transitions(AtPush(m, data, callback), acts) <= 1
    ensures Open(HandleWrite(m, data, callback, listening, acts))
    ensures Writes(HandleWrite(m, data, callback, listening, acts).log) == Writes(m.log) + [Write(WriteCount(m), data)]
    ensures HandleWrite(m, data, callback, listening, acts).log.callbacks ==
              m.log.callbacks + (if callback then [WriteCount(m)] else [])
  {
    var w := Write(WriteCount(m), data);
    var used := PushIsMid(m, data, callback, listening, acts);
    SettleOpens(Push(Buffer(m, data, callback), w, listening, acts), w, callback, used);
  }

  // ---------------------------------------------------------------------
  // Whole runs
  // ---------------------------------------------------------------------

  lemma ActKeepsWrites(m: Machine, a: Action)
    ensures Writes(Act(m, a).log) == Writes(m.log) && Act(m, a).log.callbacks == m.log.callbacks
    ensures Act(m, a).log.made == m.log.made
    ensures Act(m, a).log.shown == m.log.shown && Act(m, a).log.owed == m.log.owed
    ensures Act(m, a).client == m.client
  {
    LogsOfReset(m.log);
  }

  lemma {:induction false} ActAllKeepsWrites(m: Machine, acts: seq<Action>)
    ensures Writes(ActAll(m, acts).log) == Writes(m.log) && ActAll(m, acts).log.callbacks == m.log.callbacks
    ensures ActAll(m, acts).log.made == m.log.made
    ensures ActAll(m, acts).log.shown == m.log.shown && ActAll(m, acts).log.owed == m.log.owed
    ensures ActAll(m, acts).client == m.client
  {
    if acts != [] {
      ActAllKeepsWrites(m, Init(acts));
      ActKeepsWrites(ActAll(m, Init(acts)), Last(acts));
    }
  }

  lemma PassKeepsLedger(m: Machine, rewrite: Option<Rewrite>)
    requires m.ctl.readyState == Pending && m.log.open.verdict.Undecided?
    requires m.ctl.buffered == Acked(m.log.open.writes) && OpenLedger(m.log)
    ensures OpenLedger(DoPass(m, rewrite).log)
  {
    var m', ws := DoPass(m, rewrite), m.log.open.writes;
    assert m'.log.delegated == m.log.delegated by { OwedOfAcked(ws); }
    assert Payload(m'.log.sent) == AllOnWire(m.log.past) + OnWire(Exchange(ws, Passed(rewrite, |ws|))) by {
      PassPayload(m, rewrite, ws);
    }
    assert m'.log.open == Exchange(ws, Passed(rewrite, |ws|));
  }

  lemma {:induction false} PassKeepsOpen(m: Machine, rewrite: Option<Rewrite>)
    requires Open(m) && m.ctl.readyState == Pending
    ensures Open(DoPass(m, rewrite))
  {
    PassKeepsLinks(m, rewrite);
    PassKeepsLedger(m, rewrite);
  }

  lemma {:induction false} ActKeepsOpen(m: Machine, a: Action)
    requires Open(m)
    ensures Open(Act(m, a))
  {
    match a
    case Claim => if m.ctl.readyState == Pending { AckedBelow(m, m.log.open.writes); }
    case Pass(rewrite) => if m.ctl.readyState == Pending { PassKeepsOpen(m, rewrite); }
    case Reset(target) =>
      RetargetKeepsLinks(m.link, target, m.log.sent);
      LogsOfReset(m.log);
    case ScheduleReset =>
  }

  lemma {:induction false} ActAllKeepsOpen(m: Machine, acts: seq<Action>)
    requires Open(m)
    ensures Open(ActAll(m, acts))
  {
    if acts != [] {
      ActAllKeepsOpen(m, Init(acts));
      ActKeepsOpen(ActAll(m, Init(acts)), Last(acts));
    }
  }

  /** Reading, corking and closing leave the write side alone. */
  ghost predicate SameWriteSide(m: Machine, m': Machine) {
    m'.ctl == m.ctl && m'.link == m.link && m'.log == m.log
  }

  lemma {:induction false} ReplayKeepsWriteSide(m: Machine, events: seq<ReadEvent>)
    ensures Replay(m, events).log == m.log
    ensures m.client.closed ==> Replay(m, events).client.closed
    ensures !Replay(m, events).client.closed ==> SameWriteSide(m, Replay(m, events))
  {
    if events != [] {
      ReplayKeepsWriteSide(m, Init(events));
    }
  }

  lemma FrameOpen(m: Machine, m': Machine)
    requires Open(m) && SameWriteSide(m, m') && !m'.client.closed
    ensures Open(m')
  {
  }

  /** The events that touch only what the client reads, or its life cycle. */
  predicate ReadsOnly(e: Event) {
    !e.ClientWrite? && !e.DeferredPush? && !e.Perform? && !e.EmulateConnect? && !e.Connected? && !e.Dropped?
  }

  lemma ReadStepKeepsWriteSide(m: Machine, e: Event)
    requires ReadsOnly(e)
    ensures Step(m, e).log == m.log
    ensures Step(m, e).client.closed || SameWriteSide(m, Step(m, e))
    ensures m.client.closed ==> Step(m, e).client.closed
  {
    match e
    case Uncork => ReplayKeepsWriteSide(Opened(m), m.intake.queue);
    case Arrives(c, read) => ArrivalKeepsWriteSide(m, read);
    case _ =>
  }

  lemma ArrivalKeepsWriteSide(m: Machine, e: ReadEvent)
    ensures OnRead(m, e).log == m.log
    ensures OnRead(m, e).client.closed || SameWriteSide(m, OnRead(m, e))
    ensures m.client.closed ==> OnRead(m, e).client.closed
  {
  }

  lemma LinkStepKeepsOpen(m: Machine, e: Event)
    requires Open(m) && (e.Connected? || e.Dropped? || e.EmulateConnect?)
    ensures Open(Step(m, e)) && Step(m, e).log == m.log
  {
    if e.Dropped? { DestroyKeepsLinks(m.link, e.conn, m.log.sent); }
    if e.Connected? && m.link.current.Some? { DestroyKeepsLinks(m.link, m.link.current.value, m.log.sent); }
  }

  lemma DestroyKeepsLinks(l: Link, c: nat, sent: seq<Sent>)
    requires Linked(l) && AllRouted(l, sent)
    ensures Linked(Destroy(l, c)) && AllRouted(Destroy(l, c), sent)
  {
  }

  /** The machine after the oldest write still owed to the server side was shown. */
  function ShowOwed(m: Machine): Machine
    requires m.log.owed != []
  {
    m.(log := m.log.(shown := m.log.shown + [m.log.owed[0]], owed := m.log.owed[1..]))
  }

  lemma StepKeepsOpen(m: Machine, e: Event)
    requires Open(m) && Disciplined(m, e)
    ensures Step(m, e).client.closed || Open(Step(m, e))
    ensures Writes(Step(m, e).log) ==
              Writes(m.log) + (if e.ClientWrite? then [Write(WriteCount(m), e.data)] else [])
    ensures Step(m, e).log.callbacks ==
              m.log.callbacks + (if e.ClientWrite? && e.callback then [WriteCount(m)] else [])
  {
    match e
    case ClientWrite(data, callback, listening, acts) => WriteKeepsOpen(m, data, callback, listening, acts);
    case DeferredPush(acts) =>
      if m.log.owed != [] {
        ActAllKeepsOpen(ShowOwed(m), acts);
        ActAllKeepsWrites(ShowOwed(m), acts);
      }
    case Perform(act) =>
      ActKeepsOpen(m, act);
      ActKeepsWrites(m, act);
    case _ =>
      if ReadsOnly(e) {
        ReadStepKeepsWriteSide(m, e);
        if !Step(m, e).client.closed { FrameOpen(m, Step(m, e)); }
      } else {
        LinkStepKeepsOpen(m, e);
      }
  }

  lemma WriteStaysClosed(m: Machine, data: Data, callback: bool, listening: bool, acts: seq<Action>)
    requires m.client.closed
    ensures HandleWrite(m, data, callback, listening, acts).client.closed
  {
    ActAllKeepsWrites(AtPush(m, data, callback), acts);
  }

  lemma StepStaysClosed(m: Machine, e: Event)
    requires m.client.closed
    ensures Step(m, e).client.closed
  {
    match e
    case ClientWrite(data, callback, listening, acts) => WriteStaysClosed(m, data, callback, listening, acts);
    case DeferredPush(acts) => if m.log.owed != [] { ActAllKeepsWrites(ShowOwed(m), acts); }
    case Perform(act) => ActKeepsWrites(m, act);
    case _ => if ReadsOnly(e) { ReadStepKeepsWriteSide(m, e); }
  }

  lemma StartIsOpen(original: Target)
    ensures Open(Start(original)) && Writes(Start(original).log) == []
  {
    assert Payload([]) == [];
    assert Acked([]) == [];
  }

  lemma {:induction false} RunKeepsOpen(m: Machine, events: seq<Event>)
    requires Open(m) && DisciplinedRun(m, events) && !Run(m, events).client.closed
    ensures Open(Run(m, events))
  {
    if events != [] {
      var before, e := Run(m, Init(events)), Last(events);
      if before.client.closed {
        StepStaysClosed(before, e);
      } else {
        RunKeepsOpen(m, Init(events));
        StepKeepsOpen(before, e);
      }
    }
  }

  lemma {:induction false} RunRecordsCallbacks(original: Target, events: seq<Event>)
    requires DisciplinedRun(Start(original), events) && !Run(Start(original), events).client.closed
    ensures Writes(Run(Start(original), events).log) == WritesOf(events)
    ensures Run(Start(original), events).log.callbacks == CallbacksOf(events)
  {
    if events != [] {
      var before, e := Run(Start(original), Init(events)), Last(events);
      if before.client.closed {
        StepStaysClosed(before, e);
      } else {
        StartIsOpen(original);
        RunKeepsOpen(Start(original), Init(events));
        RunRecordsCallbacks(original, Init(events));
        StepKeepsOpen(before, e);
        assert WriteCount(before) == |WritesOf(Init(events))|;
      }
    }
  }

  /**
   Over every run of disciplined pushes, until the client closes: every client
   write is in exactly one exchange, in order, and what was handed to real
   connections is exactly the passed-through exchanges, in order.
   */
  lemma {:induction false} ExchangeIsolation(original: Target, events: seq<Event>)
    requires DisciplinedRun(Start(original), events) && !Run(Start(original), events).client.closed
    ensures AllWrites(Exchanges(Run(Start(original), events))) == WritesOf(events)
    ensures Payload(Run(Start(original), events).log.sent) == AllOnWire(Exchanges(Run(Start(original), events)))
  {
    var m := Run(Start(original), events);
    StartIsOpen(original);
    RunKeepsOpen(Start(original), events);
    RunRecordsCallbacks(original, events);
    AllOnWireSnoc(m.log.past, m.log.open);
  }

  /** Every callback the client passed is settled exactly once: acknowledged, or given to a connection. */
  lemma CallbacksSettleOnce(original: Target, events: seq<Event>)
    requires DisciplinedRun(Start(original), events) && !Run(Start(original), events).client.closed
    ensures var g := Run(Start(original), events).log;
            multiset(g.acked) + multiset(g.delegated) == multiset(CallbacksOf(events))
  {
    StartIsOpen(original);
    RunKeepsOpen(Start(original), events);
    RunRecordsCallbacks(original, events);
  }

  /** No connection ever gets a write on a handle that was not swapped in, or for another target. */
  lemma SentWhereWanted(original: Target, events: seq<Event>)
    requires DisciplinedRun(Start(original), events) && !Run(Start(original), events).client.closed
    ensures var m := Run(Start(original), events); AllRouted(m.link, m.log.sent)
  {
    StartIsOpen(original);
    RunKeepsOpen(Start(original), events);
    RunRecordsCallbacks(original, events);
  }

  lemma {:induction false} WireIdsBelow(xs: seq<Exchange>, y: Write)
    requires Numbered(AllWrites(xs)) && y in AllOnWire(xs)
    ensures y.id < |AllWrites(xs)|
  {
    var before := AllWrites(Init(xs));
    assert forall i :: 0 <= i < |before| ==> before[i] == AllWrites(xs)[i];
    if y in AllOnWire(Init(xs)) {
      WireIdsBelow(Init(xs), y);
    } else {
      WireIdsOfLast(xs, y);
    }
  }

  lemma WireIdsOfLast(xs: seq<Exchange>, y: Write)
    requires xs != [] && Numbered(AllWrites(xs)) && y in OnWire(Last(xs))
    ensures |AllWrites(Init(xs))| <= y.id < |AllWrites(xs)|
  {
    var i :| 0 <= i < |OnWire(Last(xs))| && OnWire(Last(xs))[i] == y;
    assert Last(xs).writes[i] == AllWrites(xs)[|AllWrites(Init(xs))| + i];
  }

  lemma {:induction false} UnpassedStaysOff(xs: seq<Exchange>, i: nat, w: Write, y: Write)
    requires Numbered(AllWrites(xs)) && i < |xs| && !xs[i].verdict.Passed?
    requires w in xs[i].writes && y in AllOnWire(xs)
    ensures y.id != w.id
  {
    var before := AllWrites(Init(xs));
    assert forall k :: 0 <= k < |before| ==> before[k] == AllWrites(xs)[k];
    if i == |xs| - 1 {
      var k :| 0 <= k < |xs[i].writes| && xs[i].writes[k] == w;
      assert w == AllWrites(xs)[|before| + k];
      WireIdsBelow(Init(xs), y);
    } else if y in AllOnWire(Init(xs)) {
      UnpassedStaysOff(Init(xs), i, w, y);
    } else {
      WireIdsOfLast(xs, y);
      WriteOf(Init(xs), i, w);
      var k :| 0 <= k < |before| && before[k] == w;
    }
  }

  lemma {:induction false} WriteOf(xs: seq<Exchange>, i: nat, w: Write)
    requires i < |xs| && w in xs[i].writes
    ensures w in AllWrites(xs)
  {
    if i < |xs| - 1 {
      WriteOf(Init(xs), i, w);
    }
  }

  /** No write of a claimed (or still undecided) exchange ever reaches a real connection. */
  lemma ClaimedNeverOnWire(original: Target, events: seq<Event>, i: nat, w: Write, k: nat)
    requires DisciplinedRun(Start(original), events) && !Run(Start(original), events).client.closed
    requires i < |Exchanges(Run(Start(original), events))|
    requires !Exchanges(Run(Start(original), events))[i].verdict.Passed?
    requires w in Exchanges(Run(Start(original), events))[i].writes
    requires k < |Run(Start(original), events).log.sent|
    ensures Run(Start(original), events).log.sent[k].write.id != w.id
  {
    var m := Run(Start(original), events);
    StartIsOpen(original);
    RunKeepsOpen(Start(original), events);
    RunRecordsCallbacks(original, events);
    ExchangeIsolation(original, events);
    assert Writes(m.log) == AllWrites(Exchanges(m)) by { AllOnWireSnoc(m.log.past, m.log.open); }
    assert Payload(m.log.sent)[k] == m.log.sent[k].write;
    UnpassedStaysOff(Exchanges(m), i, w, m.log.sent[k].write);
  }
}
