/**
 When the server's writes reach the client: at once if it has room, and as far as it goes
 whenever it is connected, reads on, or the stream ends.
 */
module ServerFlushing {
  import opened Prelude
  import opened ServerStream

  /** How many of so many pushes are made, from a position on: up to and including the first that is refused. */
  function Room(answers: Answers, from: nat, n: nat): (k: nat)
    ensures k <= n && (n > 0 ==> k > 0)
    decreases n
  {
    if n == 0 then 0 else if !answers(from) then 1 else 1 + Room(answers, from + 1, n - 1)
  }

  /** All but the last of them are taken, and if there are more, that one is not. */
  lemma {:induction false} RoomIs(answers: Answers, from: nat, n: nat)
    ensures var k := Room(answers, from, n);
            (forall i :: from <= i < from + k - 1 ==> answers(i)) && (k < n ==> !answers(from + k - 1))
    decreases n
  {
    if n > 0 && answers(from) { RoomIs(answers, from + 1, n - 1); }
  }

  /** The last of those pushes was refused. */
  predicate Refuses(answers: Answers, from: nat, n: nat) {
    var k := Room(answers, from, n);
    k > 0 && !answers(from + k - 1)
  }

  function EndChunk(s: Stream): seq<Chunk> {
    if s.end.Some? then Maybe(s.end.value.chunk) else []
  }

  function EndDone(s: Stream): seq<nat> {
    if s.end.Some? then Maybe(s.end.value.done) else []
  }

  /** From one state to the next the client was pushed what it takes: if it refuses, the rest waits; if not, all went, and the end. */
  predicate PushedOn(s: Stream, s': Stream, answers: Answers) {
    var n := |s.pending|;
    var k := Room(answers, s.pushes, n);
    && s'.connecting == s.connecting && s'.pending == s.pending[k..]
    && if Refuses(answers, s.pushes, n) then
         && s'.backpressured && s'.end == s.end && s'.pushes == s.pushes + k
         && PushedChunks(s'.log) == PushedChunks(s.log) + Chunks(s.pending[..k])
         && CalledBack(s'.log) == CalledBack(s.log) + Dones(s.pending[..k])
         && Ends(s'.log) == Ends(s.log) && Drains(s'.log) == Drains(s.log)
       else
         && !s'.backpressured && s'.end.None? && s'.pushes == s.pushes + n + |EndChunk(s)|
         && PushedChunks(s'.log) == PushedChunks(s.log) + Chunks(s.pending) + EndChunk(s)
         && CalledBack(s'.log) == CalledBack(s.log) + Dones(s.pending) + EndDone(s)
         && Ends(s'.log) == Ends(s.log) + (if s.end.Some? then 1 else 0)
         && Drains(s'.log) == Drains(s.log) + (if s.backpressured then 1 else 0)
  }

  lemma {:induction false} PushFirstLogs(s: Stream)
    requires s.pending != []
    ensures var s', w := PushFirst(s), s.pending[0];
            && PushedChunks(s'.log) == PushedChunks(s.log) + [w.chunk]
            && CalledBack(s'.log) == CalledBack(s.log) + Maybe(w.done)
            && Drains(s'.log) == Drains(s.log) && Ends(s'.log) == Ends(s.log)
  {
    LogWrite(s.log, s.pending[0].chunk, s.pending[0].done);
  }

  lemma {:induction false} TakeOne(pending: seq<Pending>, k: nat)
    requires 0 < k <= |pending|
    ensures Chunks(pending[..k]) == [pending[0].chunk] + Chunks(pending[1..][..k - 1])
    ensures Dones(pending[..k]) == Maybe(pending[0].done) + Dones(pending[1..][..k - 1])
    ensures pending[1..][k - 1..] == pending[k..]
  {
    assert pending[..k][1..] == pending[1..][..k - 1];
  }

  /** The loop makes as many pushes as there is room for. */
  lemma {:induction false} LoopCounts(s: Stream, answers: Answers)
    ensures var s', n := FlushWrites(s, answers), |s.pending|;
            var k := Room(answers, s.pushes, n);
            && s'.pending == s.pending[k..] && s'.pushes == s.pushes + k
            && s'.end == s.end && s'.connecting == s.connecting
            && s'.backpressured == (s.backpressured || Refuses(answers, s.pushes, n))
    decreases |s.pending|
  {
    if s.pending != [] && answers(s.pushes) {
      var s1, n := PushFirst(s), |s.pending|;
      LoopCounts(s1, answers);
      RoomAfter(answers, s.pushes, n);
      assert s.pending[1..][Room(answers, s1.pushes, n - 1)..] == s.pending[Room(answers, s.pushes, n)..];
      hide Room, Refuses;
    }
  }

  lemma {:induction false} StopsIff(s: Stream, answers: Answers)
    ensures Stops(s, answers) <==> Refuses(answers, s.pushes, |s.pending|)
    decreases |s.pending|
  {
    if s.pending != [] && answers(s.pushes) {
      StopsIff(PushFirst(s), answers);
      RoomAfter(answers, s.pushes, |s.pending|);
      hide Room, Refuses;
    }
  }

  lemma {:induction false} RoomAfter(answers: Answers, from: nat, n: nat)
    requires n > 0 && answers(from)
    ensures Room(answers, from, n) == 1 + Room(answers, from + 1, n - 1)
    ensures Refuses(answers, from, n) <==> Refuses(answers, from + 1, n - 1)
  {
  }

  /** They are of the first that wait. */
  lemma {:induction false} LoopLogs(s: Stream, answers: Answers)
    ensures var s', k := FlushWrites(s, answers), Room(answers, s.pushes, |s.pending|);
            && PushedChunks(s'.log) == PushedChunks(s.log) + Chunks(s.pending[..k])
            && CalledBack(s'.log) == CalledBack(s.log) + Dones(s.pending[..k])
            && Ends(s'.log) == Ends(s.log) && Drains(s'.log) == Drains(s.log)
    decreases |s.pending|
  {
    var n := |s.pending|;
    if n == 0 {
      assert Chunks(s.pending[..0]) == [] && Dones(s.pending[..0]) == [];
      assert PushedChunks(s.log) + [] == PushedChunks(s.log) && CalledBack(s.log) + [] == CalledBack(s.log);
    } else {
      var s1, k, w := PushFirst(s), Room(answers, s.pushes, n), s.pending[0];
      PushFirstLogs(s);
      TakeOne(s.pending, k);
      assert s1.pending == s.pending[1..] && s1.pushes == s.pushes + 1;
      hide PushFirst;
      if answers(s.pushes) {
        LoopLogs(s1, answers);
      } else {
        assert Chunks(s1.pending[..0]) == [] && Dones(s1.pending[..0]) == [];
        assert [w.chunk] + [] == [w.chunk] && Maybe(w.done) + [] == Maybe(w.done);
      }
      hide Chunks, Dones, PushedChunks, CalledBack, Ends, Drains;
      Regroup(PushedChunks(s.log), [w.chunk], Chunks(s1.pending[..k - 1]));
      Regroup(CalledBack(s.log), Maybe(w.done), Dones(s1.pending[..k - 1]));
    }
  }

  lemma {:induction false} FlushPushes(s: Stream, answers: Answers)
    requires !s.connecting
    ensures PushedOn(s, Flush(s, answers), answers)
  {
    RoomIs(answers, s.pushes, |s.pending|);
    LoopCounts(s, answers);
    StopsIff(s, answers);
    LoopLogs(s, answers);
    if !Stops(s, answers) {
      NoneRefused(answers, s.pushes, |s.pending|);
      assert s.pending[..|s.pending|] == s.pending;
      FinishLogs(FlushWrites(s, answers));
    }
    hide FlushWrites, Stops, FinishFlush, Room, Refuses, Chunks, Dones, PushedChunks, CalledBack, Ends, Drains;
  }

  lemma NoneRefused(answers: Answers, from: nat, n: nat)
    requires !Refuses(answers, from, n)
    ensures Room(answers, from, n) == n
  {
    RoomIs(answers, from, n);
  }

  lemma {:induction false} FinishLogs(s: Stream)
    ensures var s' := FinishFlush(s);
            && PushedChunks(s'.log) == PushedChunks(s.log) + EndChunk(s)
            && CalledBack(s'.log) == CalledBack(s.log) + EndDone(s)
            && Ends(s'.log) == Ends(s.log) + (if s.end.Some? then 1 else 0)
            && Drains(s'.log) == Drains(s.log) + (if s.backpressured then 1 else 0)
            && s'.pending == s.pending && s'.end.None? && !s'.backpressured && s'.connecting == s.connecting
            && s'.pushes == s.pushes + |EndChunk(s)|
  {
    if s.end.Some? { LogEnd(s.log, s.end.value); }
    LogSnoc(DeliverEnd(s.(backpressured := false)).log, Drained);
  }

  /** What waits after an operation has added to it. */
  function Offered(s: Stream, op: Op): Stream {
    match op
    case Write(w) => s.(pending := s.pending + [w])
    case End(final) => s.(end := Some(final))
    case Connect => s.(connecting := false)
    case Ready => s.(flushScheduled := false)
    case Read => s
  }

  /** An operation that has the client pushed what it takes: a write with room, an end, a scheduled flush, a read of a stream that waits. */
  predicate Pushes(s: Stream, op: Op) {
    match op
    case Write(_) => !s.backpressured
    case End(_) => true
    case Connect => false
    case Ready => s.flushScheduled
    case Read => s.pending != [] || s.end.Some? || s.backpressured
  }

  /**
   Over any use: once connected, such an operation pushes as far as the client goes; before,
   it sets the flag and schedules a flush; and any other only adds to what waits.
   */
  lemma {:induction false} PushedAsFarAsItGoes(ops: seq<Op>, op: Op, answers: Answers)
    ensures var s, s' := Run(ops, answers), Run(ops + [op], answers);
            && (Pushes(s, op) && !s.connecting ==> PushedOn(Offered(s, op), s', answers))
            && (Pushes(s, op) && s.connecting ==> s' == Offered(s, op).(backpressured := true, flushScheduled := true))
            && (!Pushes(s, op) ==> s' == if op.Ready? then s else Offered(s, op))
  {
    InitOfSnoc(ops, op);
    var s := Run(ops, answers);
    if Pushes(s, op) && !s.connecting { FlushPushes(Offered(s, op), answers); }
    hide Flush, PushedOn;
  }

  /** The client has been pushed this write, after all before it, and nothing waits; the flag says whether it was refused. */
  predicate WritePushed(s: Stream, s': Stream, w: Pending, answers: Answers) {
    && PushedChunks(s'.log) == PushedChunks(s.log) + [w.chunk]
    && CalledBack(s'.log) == CalledBack(s.log) + Maybe(w.done)
    && s'.pending == [] && (s'.backpressured <==> !answers(s.pushes))
  }

  /** Of a connected client with room, a write is pushed at once. */
  lemma {:induction false} RoomyWrite(s: Stream, w: Pending, answers: Answers)
    requires Waiting(s) && !s.connecting && !s.backpressured
    ensures WritePushed(s, DoWrite(s, w, answers), w, answers)
  {
    var s1 := s.(pending := s.pending + [w]);
    FlushPushes(s1, answers);
    assert DoWrite(s, w, answers) == Flush(s1, answers) && s1.pending == [w];
    assert [w][1..] == [] && [w][..1] == [w];
    assert Chunks([w]) == [w.chunk] + Chunks([]) && Dones([w]) == Maybe(w.done) + Dones([]);
    assert Room(answers, s.pushes, 1) == 1;
    hide Flush, DoWrite, Chunks, Dones, PushedChunks, CalledBack;
    assert PushedChunks(s.log) + ([w.chunk] + []) + [] == PushedChunks(s.log) + [w.chunk];
    assert CalledBack(s.log) + (Maybe(w.done) + []) + [] == CalledBack(s.log) + Maybe(w.done);
  }

  /** Over any use. */
  lemma {:induction false} WriteIsPushed(ops: seq<Op>, w: Pending, answers: Answers)
    requires var s := Run(ops, answers); !s.connecting && !s.backpressured
    ensures WritePushed(Run(ops, answers), Run(ops + [Op.Write(w)], answers), w, answers)
  {
    InitOfSnoc(ops, Op.Write(w));
    NothingIsStranded(ops, answers);
    RoomyWrite(Run(ops, answers), w, answers);
    hide WritePushed;
  }

  /** The client is connecting until it is connected. */
  lemma {:induction false} ConnectingIff(ops: seq<Op>, answers: Answers)
    ensures Run(ops, answers).connecting <==> Op.Connect !in ops
  {
    if ops != [] {
      InitLast(ops);
      ConnectingIff(Init(ops), answers);
      var s, op := Run(Init(ops), answers), Last(ops);
      PushedAsFarAsItGoes(Init(ops), op, answers);
      hide Run, Step, PushedOn, Pushes;
      KeepsConnecting(s, op, answers);
    }
  }

  lemma {:induction false} KeepsConnecting(s: Stream, op: Op, answers: Answers)
    ensures Step(s, op, answers).connecting == (s.connecting && op != Connect)
  {
    match op
    case Write(w) => FlushKeeps(s.(pending := s.pending + [w]), answers);
    case End(final) => FlushKeeps(s.(end := Some(final)), answers);
    case Connect =>
    case Ready => FlushKeeps(s.(flushScheduled := false), answers);
    case Read => FlushKeeps(s, answers);
  }

  /** What was written while connecting is pushed when the connected client is ready: all of it, or up to the first refusal. */
  lemma {:induction false} ReadyPushes(ops: seq<Op>, answers: Answers)
    requires Op.Connect !in ops && Run(ops, answers).pending != []
    ensures var s, s' := Run(ops, answers), Run(ops + [Op.Connect] + [Ready], answers);
            PushedOn(s.(connecting := false), s', answers)
  {
    var s := Run(ops, answers);
    ConnectingIff(ops, answers);
    NothingIsStranded(ops, answers);
    PushedAsFarAsItGoes(ops, Op.Connect, answers);
    PushedAsFarAsItGoes(ops + [Op.Connect], Ready, answers);
    hide Run, Room, Refuses, Chunks, Dones, PushedChunks, CalledBack, Ends, Drains;
    assert Offered(Offered(s, Op.Connect), Ready) == s.(connecting := false, flushScheduled := false);
  }
}
