/**
 The controller itself: fields updated in place, loops over the buffer, over the
 chunks of a vectored write and over the corked reads. Every method is proved to
 take exactly the step of SocketMachine that bears its name.
 */
module TcpSocket {
  import opened Prelude
  import opened M = SocketMachine
  import opened SocketDelivery
  import opened SocketIsolation
  import opened SocketReads

  /** One chunk handed over, and the write whose callback travels with it. */
  datatype ChunkWrite = ChunkWrite(route: Route, chunk: Chunk, completes: Option<nat>)

  /** A write becomes one socket write per chunk; only the last one carries the callback. */
  function ChunkWrites(route: Route, w: Write, callback: bool): seq<ChunkWrite> {
    seq(|w.data|, i requires 0 <= i < |w.data| =>
      ChunkWrite(route, w.data[i], if i == |w.data| - 1 && callback then Some(w.id) else None))
  }

  /** The bytes of the socket writes, and the callbacks among them. */
  function Bytes(chunks: seq<ChunkWrite>): string {
    if chunks == [] then "" else Bytes(Init(chunks)) + Last(chunks).chunk
  }

  function Completions(chunks: seq<ChunkWrite>): seq<nat> {
    if chunks == [] then [] else
      Completions(Init(chunks)) + (if Last(chunks).completes.Some? then [Last(chunks).completes.value] else [])
  }

  function Concat(chunks: seq<Chunk>): string {
    if chunks == [] then "" else Concat(Init(chunks)) + Last(chunks)
  }

  lemma {:induction false} BytesOf(route: Route, w: Write, callback: bool, n: nat)
    requires n <= |w.data|
    ensures Bytes(ChunkWrites(route, w, callback)[..n]) == Concat(w.data[..n])
    ensures Completions(ChunkWrites(route, w, callback)[..n]) == if n == |w.data| && callback then [w.id] else []
  {
    if n > 0 {
      var cs := ChunkWrites(route, w, callback);
      assert Init(cs[..n]) == cs[..n - 1] && Init(w.data[..n]) == w.data[..n - 1];
      BytesOf(route, w, callback, n - 1);
    }
  }

  /** However a write is split, its bytes go out once, in order, and its callback is called once. */
  lemma ChunkedWriteIsWhole(route: Route, w: Write, callback: bool)
    ensures Bytes(ChunkWrites(route, w, callback)) == Concat(w.data)
    ensures Completions(ChunkWrites(route, w, callback)) == if callback then [w.id] else []
  {
    BytesOf(route, w, callback, |w.data|);
    assert w.data[..|w.data|] == w.data;
    var cs := ChunkWrites(route, w, callback);
    assert cs[..|w.data|] == cs;
  }

  method WritePendingData(route: Route, w: Write, callback: bool) returns (chunks: seq<ChunkWrite>)
    ensures chunks == ChunkWrites(route, w, callback)
  {
    chunks := [];
    for i := 0 to |w.data|
      invariant chunks == ChunkWrites(route, w, callback)[..i]
    {
      var isLastEntry := i == |w.data| - 1;
      chunks := chunks + [ChunkWrite(route, w.data[i], if isLastEntry && callback then Some(w.id) else None)];
    }
  }

  /** The chunks of a write, one by one. */
  method UnwrapPendingData(emitted: seq<Chunk>, data: Data) returns (emitted': seq<Chunk>)
    ensures emitted' == emitted + data
  {
    emitted' := emitted;
    for i := 0 to |data|
      invariant emitted' == emitted + data[..i]
    {
      emitted' := emitted' + [data[i]];
    }
  }

  function Delegate(g: Log, s: Sent, callback: bool): Log {
    g.(sent := g.sent + [s], delegated := if callback then g.delegated + [s.write.id] else g.delegated)
  }

  function Flushed(g: Log, b: seq<Entry>, rewrite: Option<Rewrite>, conn: nat, target: Target): Log {
    g.(sent := g.sent + Flush(b, rewrite, conn, target), delegated := g.delegated + Owed(b))
  }

  lemma FlushSnoc(g: Log, b: seq<Entry>, i: nat, rewrite: Option<Rewrite>, conn: nat, target: Target)
    requires i < |b|
    ensures Flushed(g, b[..i + 1], rewrite, conn, target) ==
              Delegate(Flushed(g, b[..i], rewrite, conn, target),
                       Sent(Direct(conn), FlushedWrite(b, rewrite, i), target), b[i].callback)
  {
    assert Init(b[..i + 1]) == b[..i];
    assert Flush(b[..i + 1], rewrite, conn, target) ==
           Flush(b[..i], rewrite, conn, target) + [Sent(Direct(conn), FlushedWrite(b, rewrite, i), target)];
  }

  /** The bytes of the writes handed over, and the chunks of the writes shown. */
  function BytesSent(sent: seq<Sent>): string {
    if sent == [] then "" else BytesSent(Init(sent)) + Concat(Last(sent).write.data)
  }

  function ChunksShown(shown: seq<Write>): seq<Chunk> {
    if shown == [] then [] else ChunksShown(Init(shown)) + Last(shown).data
  }

  lemma {:induction false} BytesAppend(a: seq<ChunkWrite>, b: seq<ChunkWrite>)
    ensures Bytes(a + b) == Bytes(a) + Bytes(b)
  {
    if b == [] {
      assert a + b == a;
    } else {
      BytesAppend(a, Init(b));
      InitLast(b);
      assert a + b == (a + Init(b)) + [Last(b)];
      InitOfSnoc(a + Init(b), Last(b));
      assert (Bytes(a) + Bytes(Init(b))) + Last(b).chunk == Bytes(a) + (Bytes(Init(b)) + Last(b).chunk);
    }
  }

  /** Handing one more write over adds exactly its bytes to the wire. */
  lemma BytesOfHandOver(wire: seq<ChunkWrite>, g: Log, s: Sent, callback: bool)
    requires Bytes(wire) == BytesSent(g.sent)
    ensures Bytes(wire + ChunkWrites(s.route, s.write, callback)) == BytesSent(Delegate(g, s, callback).sent)
  {
    BytesAppend(wire, ChunkWrites(s.route, s.write, callback));
    ChunkedWriteIsWhole(s.route, s.write, callback);
    InitOfSnoc(g.sent, s);
  }

  class TcpSocketController {
    var readyState: ReadyState
    var bufferedWrites: seq<Entry>
    var resetScheduled: bool
    var connectEmulated: bool
    const originalTarget: Target
    var retargetedConnectionOptions: Option<Target>
    var passthroughSocket: Option<nat>
    var realHandleSwapped: bool
    // The reads held back or put off, and what the client got of them.
    var intake: Reads

    // The client socket and the real sockets, as far as the controller looks at them.
    var client: Client
    var handle: Option<nat>
    var realSockets: seq<Conn>
    var nextWrite: nat
    var deferredPushes: seq<Write>

    // What the controller did, chunk by chunk, and write by write.
    var wire: seq<ChunkWrite>
    var emitted: seq<Chunk>
    ghost var log: Log

    ghost function Model(): Machine
      reads this
    {
      Machine(
        Controller(readyState, bufferedWrites, resetScheduled, connectEmulated),
        Link(originalTarget, retargetedConnectionOptions, realSockets, passthroughSocket, realHandleSwapped, handle),
        client, intake, log)
    }

    ghost predicate Valid()
      reads this
    {
      && nextWrite == log.made
      && deferredPushes == log.owed
      && Recorded()
      && (passthroughSocket.Some? ==> passthroughSocket.value < |realSockets|)
    }

    /** The chunks on the wire and at the server carry the bytes of the writes in the log. */
    ghost predicate Recorded()
      reads this`wire, this`emitted, this`log
    {
      Bytes(wire) == BytesSent(log.sent) && emitted == ChunksShown(log.shown)
    }

    constructor (target: Target)
      ensures Valid() && Model() == Start(target)
    {
      originalTarget := target;
      readyState := Pending;
      bufferedWrites, resetScheduled, connectEmulated := [], false, false;
      retargetedConnectionOptions, passthroughSocket := None, None;
      realHandleSwapped, handle, realSockets, nextWrite := false, None, [], 0;
      client := Client(true, false, false, false, false);
      intake := Reads(false, [], [], [], [], [], []);
      wire, emitted, deferredPushes := [], [], [];
      log := Log([], Exchange([], Undecided), 0, [], [], [], [], [], []);
    }

    /** Hand one write to a connection. */
    method HandOver(route: Route, w: Write, callback: bool)
      requires Recorded()
      modifies this`wire, this`log
      ensures Recorded()
      ensures wire == old(wire) + ChunkWrites(route, w, callback)
      ensures log == Delegate(old(log), Sent(route, w, old(Effective(Model().link))), callback)
    {
      var chunks := WritePendingData(route, w, callback);
      BytesOfHandOver(wire, log, Sent(route, w, Effective(Model().link)), callback);
      wire := wire + chunks;
      log := Delegate(log, Sent(route, w, Effective(Model().link)), callback);
    }

    /** The position of a write in the buffer, or -1. */
    method IndexOfWrite(id: nat) returns (index: int)
      ensures index == IndexOf(bufferedWrites, id)
    {
      index := -1;
      var i := 0;
      while i < |bufferedWrites|
        invariant 0 <= i <= |bufferedWrites| && index == IndexOf(bufferedWrites[..i], id)
      {
        assert Init(bufferedWrites[..i + 1]) == bufferedWrites[..i];
        if index == -1 && bufferedWrites[i].write.id == id {
          index := i;
        }
        i := i + 1;
      }
      assert bufferedWrites[..i] == bufferedWrites;
    }

    method ResetFields()
      requires Valid() && readyState != Pending
      modifies this
      ensures Valid()
      ensures Model() == old(Model()).(
                ctl := Controller(Pending, [], false, false),
                log := old(log).(past := old(log).past + [old(log).open], open := Exchange([], Undecided)))
    {
      resetScheduled := false;
      readyState := Pending;
      bufferedWrites := [];
      connectEmulated := false;
      log := log.(past := log.past + [log.open], open := Exchange([], Undecided));
    }

    method Reset(target: Option<Target>)
      requires Valid()
      modifies this
      ensures Valid() && Model() == DoReset(old(Model()), target)
    {
      if target.Some? {
        retargetedConnectionOptions := target;
        if passthroughSocket.Some? {
          var c := passthroughSocket.value;
          realSockets := realSockets[c := realSockets[c].(attached := false, destroyed := true)];
          passthroughSocket := None;
          realHandleSwapped := false;
        }
      }
      if readyState == Pending {
        return;
      }
      ResetFields();
    }

    method ScheduleReset()
      requires Valid()
      modifies this`resetScheduled
      ensures Valid() && Model() == Act(old(Model()), Action.ScheduleReset)
    {
      resetScheduled := true;
    }

    /** Claiming a settled socket fails; the failure changes nothing. */
    method Claim() returns (accepted: bool)
      requires Valid()
      modifies this
      ensures Valid() && Model() == DoClaim(old(Model())) && accepted == (old(readyState) == Pending)
    {
      accepted := readyState == Pending;
      if !accepted {
        return;
      }
      readyState := Claimed;
      log := WithVerdict(log, Mocked);
      if client.destroyed || (!client.connecting && !connectEmulated) {
        return;
      }
      bufferedWrites := [];
    }

    /** The live passthrough socket is reused; otherwise a new one dials the latest target. */
    method OpenPassthroughSocket() returns (conn: nat)
      requires Valid()
      modifies this`realSockets, this`passthroughSocket
      ensures Valid() && conn == NextConn(old(Model()).link) && Model().link == OpenLink(old(Model()).link)
    {
      if passthroughSocket.Some? && !realSockets[passthroughSocket.value].destroyed {
        conn := passthroughSocket.value;
        realSockets := realSockets[conn := realSockets[conn].(attached := true)];
      } else {
        var target := if retargetedConnectionOptions.Some? then retargetedConnectionOptions.value else originalTarget;
        conn := |realSockets|;
        realSockets := realSockets + [Conn(target, false, true)];
        passthroughSocket := Some(conn);
      }
    }

    /** Hand the buffered writes over; only the first is rewritten. */
    method FlushBufferedWrites(conn: nat, rewrite: Option<Rewrite>)
      requires Recorded()
      modifies this`wire, this`log
      ensures Recorded()
      ensures log == Flushed(old(log), bufferedWrites, rewrite, conn, old(Effective(Model().link)))
    {
      ghost var g, target := log, Effective(Model().link);
      assert bufferedWrites[..0] == [] && Flush([], rewrite, conn, target) == [];
      for i := 0 to |bufferedWrites|
        modifies this`wire, this`log
        invariant Recorded()
        invariant log == Flushed(g, bufferedWrites[..i], rewrite, conn, target)
      {
        var pending := bufferedWrites[i];
        var data := pending.write.data;
        if i == 0 && rewrite.Some? {
          data := rewrite.value(data);
        }
        FlushSnoc(g, bufferedWrites, i, rewrite, conn, target);
        HandOver(Direct(conn), Write(pending.write.id, data), pending.callback);
      }
      assert bufferedWrites[..|bufferedWrites|] == bufferedWrites;
    }

    /** The buffered writes leave on the connection the socket is passed through to. */
    method FlushInto(conn: nat, rewrite: Option<Rewrite>)
      requires Recorded()
      modifies this`wire, this`log, this`bufferedWrites
      ensures Recorded() && bufferedWrites == []
      ensures log == WithVerdict(Flushed(old(log), old(bufferedWrites), rewrite, conn, old(Effective(Model().link))),
                                 Passed(rewrite, |old(bufferedWrites)|))
    {
      FlushBufferedWrites(conn, rewrite);
      log := WithVerdict(log, Passed(rewrite, |bufferedWrites|));
      bufferedWrites := [];
    }

    /** Passing a settled socket through fails; the failure changes nothing. */
    method Passthrough(rewrite: Option<Rewrite>) returns (accepted: bool)
      requires Valid()
      modifies this
      ensures Valid() && Model() == DoPass(old(Model()), rewrite) && accepted == (old(readyState) == Pending)
    {
      hide Bytes, BytesSent, ChunksShown;
      accepted := readyState == Pending;
      if !accepted {
        return;
      }
      readyState := ReadyState.Passthrough;
      var conn := OpenPassthroughSocket();
      FlushInto(conn, rewrite);
    }

    method Perform(act: Action)
      requires Valid()
      modifies this
      ensures Valid() && Model() == Act(old(Model()), act)
    {
      match act
      case Claim => var _ := Claim();
      case Pass(rewrite) => var _ := Passthrough(rewrite);
      case Reset(target) => Reset(target);
      case ScheduleReset => ScheduleReset();
    }

    /** Show a write to the server side; its listeners may act on the controller. */
    method EmitToServer(w: Write, acts: seq<Action>)
      requires Valid()
      modifies this
      ensures Valid()
      ensures Model() == ActAll(old(Model()).(log := old(log).(shown := old(log).shown + [w])), acts)
    {
      emitted := UnwrapPendingData(emitted, w.data);
      InitOfSnoc(log.shown, w);
      log := log.(shown := log.shown + [w]);
      PerformAll(acts);
    }

    method PerformAll(acts: seq<Action>)
      requires Valid()
      modifies this
      ensures Valid() && Model() == ActAll(old(Model()), acts)
    {
      var i := 0;
      while i < |acts|
        invariant 0 <= i <= |acts|
        invariant Valid() && Model() == ActAll(old(Model()), acts[..i])
      {
        Perform(acts[i]);
        assert Init(acts[..i + 1]) == acts[..i];
        i := i + 1;
      }
      assert acts[..i] == acts;
    }

    /** A scheduled reset takes effect now; then the write is buffered. */
    method BufferWrite(w: Write, callback: bool)
      requires Valid() && w.id == nextWrite
      modifies this
      ensures Valid() && Model() == Buffer(old(Model()), w.data, callback)
    {
      if resetScheduled {
        Reset(None);
      }
      bufferedWrites := bufferedWrites + [Entry(w, callback)];
    }

    /** The server side sees the write now, or on the next tick when nobody listens yet. */
    method PushWrite(w: Write, listening: bool, acts: seq<Action>)
      requires Valid()
      modifies this
      ensures Valid() && Model() == Push(old(Model()), w, listening, acts)
    {
      if readyState == Pending && !listening {
        deferredPushes := deferredPushes + [w];
        log := log.(owed := log.owed + [w]);
      } else {
        EmitToServer(w, acts);
      }
    }

    method HandleWrite(data: Data, callback: bool, listening: bool, acts: seq<Action>)
      requires Valid()
      modifies this
      ensures Valid() && Model() == M.HandleWrite(old(Model()), data, callback, listening, acts)
    {
      var w := Write(nextWrite, data);
      BufferWrite(w, callback);
      ghost var m := Model();
      PushWrite(w, listening, acts);
      ActAllKeepsWrites(m.(log := m.log.(shown := m.log.shown + [w])), acts);
      SettleWrite(w, callback);
    }

    /** The write stays buffered for the pending exchange, and is acknowledged. */
    method KeepWrite(w: Write, callback: bool, index: int)
      requires Recorded()
      requires index == IndexOf(bufferedWrites, w.id)
      modifies this`bufferedWrites, this`log
      ensures Recorded()
      ensures bufferedWrites == if index < 0 then old(bufferedWrites) + [Entry(w, false)]
                                else old(bufferedWrites)[index := Entry(w, false)]
      ensures log == Acknowledge(old(log), w.id, callback)
    {
      if index < 0 {
        bufferedWrites := bufferedWrites + [Entry(w, false)];
      } else {
        bufferedWrites := bufferedWrites[index := Entry(w, false)];
      }
      log := Acknowledge(log, w.id, callback);
    }

    /** Dispatch on the state observed after the push. */
    method SettleWrite(w: Write, callback: bool)
      requires Valid() && w.id == log.made
      modifies this
      ensures Valid() && Model() == Settle(old(Model()), w, callback)
    {
      hide Bytes, BytesSent, ChunksShown;
      var index := IndexOfWrite(w.id);
      log := Record(log, w, callback);
      nextWrite := nextWrite + 1;
      if readyState == Pending {
        KeepWrite(w, callback, index);
        return;
      }
      bufferedWrites := RemoveAt(bufferedWrites, index);
      if readyState == Claimed {
        log := Acknowledge(log, w.id, callback);
      } else if index >= 0 {
        ForwardWrite(w, callback);
      }
    }

    /** Until the handle swap only the passthrough socket itself can carry data. */
    method ForwardWrite(w: Write, callback: bool)
      requires Recorded()
      modifies this`wire, this`log
      ensures Recorded()
      ensures log == Delegate(old(log), Sent(old(ExitRoute(Model().link)), w, old(Effective(Model().link))), callback)
    {
      if !realHandleSwapped && passthroughSocket.Some? {
        HandOver(Direct(passthroughSocket.value), w, callback);
      } else {
        HandOver(Handle(handle), w, callback);
      }
    }

    method OnRealSocketConnect()
      requires Valid()
      modifies this
      ensures Valid() && Model() == OnConnect(old(Model()))
    {
      if passthroughSocket.None? {
        return;
      }
      if client.destroyed {
        var c := passthroughSocket.value;
        realSockets := realSockets[c := realSockets[c].(destroyed := true)];
        return;
      }
      handle := passthroughSocket;
      realHandleSwapped := true;
      client := client.(connecting := false);
    }

    method DestroyPassthroughSocket()
      requires Valid()
      modifies this`realSockets, this`passthroughSocket
      ensures passthroughSocket == None
      ensures Model().link == if old(passthroughSocket).None? then old(Model()).link
                              else Destroy(old(Model()).link, old(passthroughSocket).value).(current := None)
    {
      if passthroughSocket.Some? {
        var c := passthroughSocket.value;
        realSockets := realSockets[c := realSockets[c].(destroyed := true)];
        passthroughSocket := None;
      }
    }

    /** The client socket emitted "close". */
    method OnClientClose()
      requires Valid()
      modifies this
      ensures Valid() && Model() == M.OnClientClose(old(Model()))
    {
      client := client.(closed := true);
      DestroyPassthroughSocket();
      bufferedWrites := [];
      intake := intake.(corked := false, queue := []);
    }

    method EmitCloseEvent(hadError: bool, origin: Origin)
      requires Valid()
      modifies this
      ensures Valid() && Model() == EmitClose(old(Model()), hadError, origin)
    {
      intake := intake.(delivered := intake.delivered + [GotClose(hadError, origin)]);
      OnClientClose();
    }

    method EmitClientClose(hadError: bool, origin: Origin)
      requires Valid()
      modifies this
      ensures Valid() && Model() == M.EmitClientClose(old(Model()), hadError, origin)
    {
      if client.endPushed && !client.endRead && !client.destroyed {
        intake := intake.(waiting := intake.waiting + [hadError]);
        return;
      }
      EmitCloseEvent(hadError, origin);
    }

    method OnRealSocketData(chunk: Chunk)
      requires Valid()
      modifies this
      ensures Valid() && Model() == OnRead(old(Model()), RealData(chunk))
    {
      intake := intake.(arrived := intake.arrived + [RealData(chunk)]);
      if intake.corked {
        intake := intake.(queue := intake.queue + [RealData(chunk)]);
        return;
      }
      intake := intake.(passed := intake.passed + [RealData(chunk)]);
      intake := intake.(delivered := intake.delivered + [GotData(chunk)]);
    }

    method OnRealSocketEnd()
      requires Valid()
      modifies this
      ensures Valid() && Model() == OnRead(old(Model()), RealEnd)
    {
      intake := intake.(arrived := intake.arrived + [RealEnd]);
      if intake.corked {
        intake := intake.(queue := intake.queue + [RealEnd]);
        return;
      }
      intake := intake.(passed := intake.passed + [RealEnd]);
      client := client.(endPushed := true);
      intake := intake.(delivered := intake.delivered + [GotEnd]);
    }

    method OnRealSocketClose(hadError: bool)
      requires Valid()
      modifies this
      ensures Valid() && Model() == OnRead(old(Model()), RealClose(hadError))
    {
      intake := intake.(arrived := intake.arrived + [RealClose(hadError)]);
      if intake.corked {
        intake := intake.(queue := intake.queue + [RealClose(hadError)]);
        return;
      }
      intake := intake.(passed := intake.passed + [RealClose(hadError)]);
      if client.closed {
        return;
      }
      if client.destroyed && !realHandleSwapped {
        return;
      }
      EmitClientClose(hadError, Forwarded);
    }

    method CorkReads()
      requires Valid()
      modifies this`intake
      ensures Valid() && Model() == Step(old(Model()), Cork)
    {
      intake := intake.(corked := true);
    }

    method UncorkReads()
      requires Valid()
      modifies this
      ensures Valid() && Model() == DoUncork(old(Model()))
      ensures Flowing(old(Model())) && !client.closed ==> HasAll(intake)
    {
      hide Flowing, HasAll;
      ghost var m := Model();
      if Flowing(m) && !DoUncork(m).client.closed { UncorkedHasAll(m); }
      if !intake.corked {
        return;
      }
      var events := intake.queue;
      intake := intake.(corked := false, queue := [], passed := intake.passed + intake.queue);
      ghost var m0 := Model();
      var i := 0;
      while i < |events|
        invariant 0 <= i <= |events|
        invariant Valid() && Model() == Replay(m0, events[..i])
      {
        assert Init(events[..i + 1]) == events[..i];
        match events[i] {
          case RealData(chunk) => intake := intake.(delivered := intake.delivered + [GotData(chunk)]);
          case RealEnd =>
            client := client.(endPushed := true);
            intake := intake.(delivered := intake.delivered + [GotEnd]);
          case RealClose(hadError) => EmitClientClose(hadError, Replayed);
        }
        i := i + 1;
      }
      assert events[..i] == events;
    }

    /** The real connection failed: the error destroys the client socket. */
    method OnRealSocketError()
      requires Valid()
      modifies this
      ensures Valid() && Model() == OnFail(old(Model()))
    {
      if client.destroyed {
        return;
      }
      DestroyClient(true);
      if realHandleSwapped {
        intake := intake.(ticks := intake.ticks + [ForceClose]);
      }
    }

    /** Every deferred close is put on the next tick, once. */
    method DeliverWaitingCloses(override: Option<bool>)
      modifies this`intake
      ensures intake == ReleaseWaiting(old(intake), override)
    {
      ghost var r := intake;
      for i := 0 to |intake.waiting|
        invariant intake == r.(ticks := r.ticks + Scheduled(r.waiting[..i], override))
      {
        assert Init(r.waiting[..i + 1]) == r.waiting[..i];
        var hadError := if override.Some? then override.value else intake.waiting[i];
        intake := intake.(ticks := intake.ticks + [DeliverClose(hadError)]);
      }
      assert r.waiting[..|r.waiting|] == r.waiting;
      intake := intake.(waiting := []);
    }

    /** The consumer reads the end-of-stream. */
    method OnClientEnd()
      requires Valid()
      modifies this`client, this`intake
      ensures Valid() && Model() == DoReadEnd(old(Model()))
    {
      if client.endPushed && !client.endRead && !client.destroyed {
        client := client.(endRead := true);
        DeliverWaitingCloses(None);
      }
    }

    /** The client socket is destroyed, by its consumer or by an error. */
    method DestroyClient(hadError: bool)
      requires Valid()
      modifies this`client, this`intake
      ensures Valid() && Model() == DoDestroy(old(Model()), hadError)
    {
      if !client.destroyed {
        client := client.(destroyed := true);
        DeliverWaitingCloses(Some(hadError));
      }
    }

    method RunNextTick()
      requires Valid()
      modifies this
      ensures Valid() && Model() == DoTick(old(Model()))
    {
      if intake.ticks == [] {
        return;
      }
      var tick := intake.ticks[0];
      intake := intake.(ticks := intake.ticks[1..]);
      match tick
      case DeliverClose(hadError) => if !client.closed { EmitCloseEvent(hadError, Deferred); }
      case ForceClose => EmitCloseEvent(true, Forced);
    }

    /** A write put off to the next tick reaches the server side. */
    method PushOwed(acts: seq<Action>)
      requires Valid()
      modifies this
      ensures Valid() && Model() == RunDeferredPush(old(Model()), acts)
    {
      if deferredPushes == [] {
        return;
      }
      var w := deferredPushes[0];
      deferredPushes := deferredPushes[1..];
      log := log.(owed := log.owed[1..]);
      EmitToServer(w, acts);
    }

    /** A "connect->write" socket is told it is connected before anything was decided. */
    method OnEmulatedConnect()
      requires Valid()
      modifies this
      ensures Valid() && Model() == DoEmulateConnect(old(Model()))
    {
      if readyState == Pending && client.connecting && bufferedWrites == [] {
        connectEmulated := true;
        client := client.(connecting := false);
      }
    }

    /** An event of a real socket: only those still attached reach the controller. */
    method OnRealSocketEvent(e: Event)
      requires Valid() && (e.Connected? || e.Arrives? || e.Fails?)
      modifies this
      ensures Valid() && Model() == Step(old(Model()), e)
    {
      if |realSockets| <= e.conn || !realSockets[e.conn].attached {
        return;
      }
      match e {
        case Connected(_) => OnRealSocketConnect();
        case Fails(_) => OnRealSocketError();
        case Arrives(_, RealData(chunk)) => OnRealSocketData(chunk);
        case Arrives(_, RealEnd) => OnRealSocketEnd();
        case Arrives(_, RealClose(hadError)) => OnRealSocketClose(hadError);
      }
    }

    /** An event of the client socket, or of the environment. */
    method OnClientEvent(e: Event)
      requires Valid() && (e.MockConnected? || e.EmulateConnect? || e.Dropped? || e.ReadEnd? || e.DestroyClient? || e.NativeClose?)
      modifies this
      ensures Valid() && Model() == Step(old(Model()), e)
    {
      match e {
        case MockConnected => client := client.(connecting := false);
        case EmulateConnect => OnEmulatedConnect();
        case Dropped(c) =>
          if c < |realSockets| { realSockets := realSockets[c := realSockets[c].(destroyed := true)]; }
        case ReadEnd => OnClientEnd();
        case DestroyClient(hadError) => DestroyClient(hadError);
        case NativeClose =>
          if client.destroyed && !realHandleSwapped { EmitCloseEvent(false, Native); }
      }
    }

    method HandleEvent(e: Event)
      requires Valid()
      modifies this
      ensures Valid() && Model() == Step(old(Model()), e)
    {
      match e {
        case ClientWrite(data, callback, listening, acts) => HandleWrite(data, callback, listening, acts);
        case DeferredPush(acts) => PushOwed(acts);
        case Perform(act) => Perform(act);
        case Cork => CorkReads();
        case Uncork => UncorkReads();
        case RunTick => RunNextTick();
        case Connected(_) => OnRealSocketEvent(e);
        case Arrives(_, _) => OnRealSocketEvent(e);
        case Fails(_) => OnRealSocketEvent(e);
        case _ => OnClientEvent(e);
      }
    }
  }

  // ---------------------------------------------------------------------
  // The class over a whole life of the socket
  // ---------------------------------------------------------------------

  /** The bytes a list of writes carries. */
  function BytesOfWrites(writes: seq<Write>): string {
    if writes == [] then "" else BytesOfWrites(Init(writes)) + Concat(Last(writes).data)
  }

  lemma {:induction false} BytesOfPayload(sent: seq<Sent>)
    ensures BytesSent(sent) == BytesOfWrites(Payload(sent))
  {
    if sent != [] {
      assert Init(Payload(sent)) == Payload(Init(sent));
      BytesOfPayload(Init(sent));
    }
  }

  /** Any events, in any order: the object is where the machine's run says it is. */
  method Live(target: Target, events: seq<Event>) returns (c: TcpSocketController)
    ensures fresh(c) && c.Valid() && c.Model() == Run(Start(target), events)
    ensures DisciplinedRun(Start(target), events) && !c.client.closed ==>
              Bytes(c.wire) == BytesOfWrites(AllOnWire(Exchanges(c.Model())))
    ensures !c.client.closed && !LastCorked(events) ==> c.intake.delivered == AsClient(c.intake.arrived)
  {
    c := new TcpSocketController(target);
    for i := 0 to |events|
      invariant fresh(c) && c.Valid() && c.Model() == Run(Start(target), events[..i])
    {
      assert Init(events[..i + 1]) == events[..i];
      c.HandleEvent(events[i]);
    }
    assert events[..|events|] == events;
    BytesOfPayload(c.log.sent);
    if DisciplinedRun(Start(target), events) && !c.client.closed {
      ExchangeIsolation(target, events);
    }
    if !c.client.closed && !LastCorked(events) {
      CorkedIff(target, events);
      CorkIsTransparent(target, events);
    }
  }
}
