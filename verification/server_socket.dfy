/**
 The server side of an intercepted socket: what the server writes is pushed to
 the client as fast as the client reads it, and not before the client connected.
 */
module ServerStream {
  import opened Prelude

  type Chunk = string

  /** Whether the client can take more after the n-th push: any answers at all. */
  type Answers = nat -> bool

  /** A buffered server write; "done" numbers its callback, if there is one. */
  datatype Pending = Pending(chunk: Chunk, done: Option<nat>)

  datatype FinalEnd = FinalEnd(chunk: Option<Chunk>, done: Option<nat>)

  datatype Out = Pushed(chunk: Chunk) | Called(done: nat) | Ended | Drained

  datatype Stream = Stream(
    pending: seq<Pending>,
    end: Option<FinalEnd>,
    backpressured: bool,
    flushScheduled: bool,
    connecting: bool,
    pushes: nat,
    log: seq<Out>)

  datatype Op =
    | Write(write: Pending)
    | End(final: FinalEnd)
    | Connect
    | Ready
    | Read

  const Fresh := Stream([], None, false, false, true, 0, [])

  function Callback(done: Option<nat>): seq<Out> {
    if done.Some? then [Called(done.value)] else []
  }

  function PushFirst(s: Stream): Stream
    requires s.pending != []
  {
    s.(pending := s.pending[1..], pushes := s.pushes + 1,
       log := s.log + [Pushed(s.pending[0].chunk)] + Callback(s.pending[0].done))
  }

  /** Push until the buffer is empty or the client has enough. */
  function FlushWrites(s: Stream, answers: Answers): Stream
    decreases |s.pending|
  {
    if s.pending == [] then s else
      var s1 := PushFirst(s);
      if answers(s.pushes) then FlushWrites(s1, answers) else s1.(backpressured := true)
  }

  /** The loop of the flush ended because the client has enough. */
  predicate Stops(s: Stream, answers: Answers)
    decreases |s.pending|
  {
    s.pending != [] && (!answers(s.pushes) || Stops(PushFirst(s), answers))
  }

  function DeliverEnd(s: Stream): Stream {
    if s.end.None? then s else
      var final := s.end.value;
      s.(end := None,
         pushes := s.pushes + (if final.chunk.Some? then 1 else 0),
         log := s.log + (if final.chunk.Some? then [Pushed(final.chunk.value)] else []) + [Ended] + Callback(final.done))
  }

  /** The buffer is empty: deliver the end, and tell the server it may write again. */
  function FinishFlush(s: Stream): Stream {
    var s1 := DeliverEnd(s.(backpressured := false));
    if s.backpressured then s1.(log := s1.log + [Drained]) else s1
  }

  function Flush(s: Stream, answers: Answers): Stream {
    if s.connecting then s.(backpressured := true, flushScheduled := true)
    else if Stops(s, answers) then FlushWrites(s, answers)
    else FinishFlush(FlushWrites(s, answers))
  }

  function DoWrite(s: Stream, w: Pending, answers: Answers): Stream {
    var s1 := s.(pending := s.pending + [w]);
    if s.backpressured then s1 else Flush(s1, answers)
  }

  function DoRead(s: Stream, answers: Answers): Stream {
    if s.pending != [] || s.end.Some? || s.backpressured then Flush(s, answers) else s
  }

  function DoReady(s: Stream, answers: Answers): Stream {
    if s.flushScheduled then Flush(s.(flushScheduled := false), answers) else s
  }

  function Step(s: Stream, op: Op, answers: Answers): Stream {
    match op
    case Write(w) => DoWrite(s, w, answers)
    case End(final) => Flush(s.(end := Some(final)), answers)
    case Connect => s.(connecting := false)
    case Ready => DoReady(s, answers)
    case Read => DoRead(s, answers)
  }

  function Run(ops: seq<Op>, answers: Answers): Stream {
    if ops == [] then Fresh else Step(Run(Init(ops), answers), Last(ops), answers)
  }

  // ---------------------------------------------------------------------
  // What was written, and what the client got
  // ---------------------------------------------------------------------

  /** What the server wrote, with the chunk passed to "end". */
  function Written(ops: seq<Op>): seq<Chunk> {
    if ops == [] then [] else Written(Init(ops)) + Adds(Last(ops)).0
  }

  /** The callbacks the server passed. */
  function Callbacks(ops: seq<Op>): seq<nat> {
    if ops == [] then [] else Callbacks(Init(ops)) + Adds(Last(ops)).1
  }

  function Maybe<T>(x: Option<T>): seq<T> {
    if x.Some? then [x.value] else []
  }

  predicate HasEnd(ops: seq<Op>) {
    exists i :: 0 <= i < |ops| && ops[i].End?
  }

  /** One end, and no write after it. */
  predicate WellUsed(ops: seq<Op>) {
    ops == [] || (WellUsed(Init(ops)) && (Last(ops).Write? || Last(ops).End? ==> !HasEnd(Init(ops))))
  }

  function PushedChunks(log: seq<Out>): seq<Chunk> {
    if log == [] then [] else
      PushedChunks(Init(log)) + (if Last(log).Pushed? then [Last(log).chunk] else [])
  }

  function CalledBack(log: seq<Out>): seq<nat> {
    if log == [] then [] else
      CalledBack(Init(log)) + (if Last(log).Called? then [Last(log).done] else [])
  }

  function Drains(log: seq<Out>): nat {
    if log == [] then 0 else Drains(Init(log)) + (if Last(log).Drained? then 1 else 0)
  }

  function Ends(log: seq<Out>): nat {
    if log == [] then 0 else Ends(Init(log)) + (if Last(log).Ended? then 1 else 0)
  }

  function Chunks(pending: seq<Pending>): seq<Chunk> {
    if pending == [] then [] else [pending[0].chunk] + Chunks(pending[1..])
  }

  function Dones(pending: seq<Pending>): seq<nat> {
    if pending == [] then [] else Maybe(pending[0].done) + Dones(pending[1..])
  }

  /** What the client got, then what is buffered for it. */
  function Content(s: Stream): seq<Chunk> {
    PushedChunks(s.log) + Chunks(s.pending) + (if s.end.Some? then Maybe(s.end.value.chunk) else [])
  }

  function Completed(s: Stream): seq<nat> {
    CalledBack(s.log) + Dones(s.pending) + (if s.end.Some? then Maybe(s.end.value.done) else [])
  }

  /** Nothing is pushed after the end-of-stream, which comes at most once. */
  predicate EndIsLast(log: seq<Out>) {
    forall i, j :: 0 <= i < j < |log| && log[i].Ended? ==> !log[j].Pushed? && !log[j].Ended?
  }

  lemma LogSnoc(log: seq<Out>, x: Out)
    ensures PushedChunks(log + [x]) == PushedChunks(log) + (if x.Pushed? then [x.chunk] else [])
    ensures CalledBack(log + [x]) == CalledBack(log) + (if x.Called? then [x.done] else [])
    ensures Drains(log + [x]) == Drains(log) + (if x.Drained? then 1 else 0)
    ensures Ends(log + [x]) == Ends(log) + (if x.Ended? then 1 else 0)
  {
    InitOfSnoc(log, x);
  }

  lemma {:induction false} LogCallback(log: seq<Out>, done: Option<nat>)
    ensures PushedChunks(log + Callback(done)) == PushedChunks(log)
    ensures CalledBack(log + Callback(done)) == CalledBack(log) + Maybe(done)
    ensures Drains(log + Callback(done)) == Drains(log) && Ends(log + Callback(done)) == Ends(log)
  {
    if done.Some? {
      LogSnoc(log, Called(done.value));
    } else {
      assert log + Callback(done) == log;
    }
  }

  lemma {:induction false} PendingSnoc(pending: seq<Pending>, w: Pending)
    ensures Chunks(pending + [w]) == Chunks(pending) + [w.chunk]
    ensures Dones(pending + [w]) == Dones(pending) + Maybe(w.done)
  {
    if pending != [] {
      assert (pending + [w])[1..] == pending[1..] + [w];
      PendingSnoc(pending[1..], w);
    }
  }

  // ---------------------------------------------------------------------
  // A flush loses nothing and reorders nothing
  // ---------------------------------------------------------------------

  /** The log entries of one write: its chunk, then its callback. */
  lemma LogWrite(log: seq<Out>, chunk: Chunk, done: Option<nat>)
    ensures var log' := log + [Pushed(chunk)] + Callback(done);
            && PushedChunks(log') == PushedChunks(log) + [chunk]
            && CalledBack(log') == CalledBack(log) + Maybe(done)
            && Drains(log') == Drains(log) && Ends(log') == Ends(log)
  {
    LogSnoc(log, Pushed(chunk));
    LogCallback(log + [Pushed(chunk)], done);
  }

  lemma {:induction false} PushFirstKeeps(s: Stream)
    requires s.pending != []
    ensures Content(PushFirst(s)) == Content(s) && Completed(PushFirst(s)) == Completed(s)
    ensures Drains(PushFirst(s).log) == Drains(s.log) && Ends(PushFirst(s).log) == Ends(s.log)
  {
    var w, s' := s.pending[0], PushFirst(s);
    LogWrite(s.log, w.chunk, w.done);
    assert Chunks(s.pending) == [w.chunk] + Chunks(s'.pending) && Dones(s.pending) == Maybe(w.done) + Dones(s'.pending);
    hide PushFirst, Chunks, Dones, PushedChunks, CalledBack, Drains, Ends;
    Regroup(PushedChunks(s.log), [w.chunk], Chunks(s'.pending));
    Regroup(CalledBack(s.log), Maybe(w.done), Dones(s'.pending));
  }

  lemma Regroup<T>(a: seq<T>, b: seq<T>, c: seq<T>)
    ensures (a + b) + c == a + (b + c)
  {
  }

  lemma {:induction false} FlushWritesKeeps(s: Stream, answers: Answers)
    ensures var s' := FlushWrites(s, answers);
            && Content(s') == Content(s) && Completed(s') == Completed(s)
            && Drains(s'.log) == Drains(s.log) && Ends(s'.log) == Ends(s.log)
            && s'.end == s.end && s'.connecting == s.connecting && s'.flushScheduled == s.flushScheduled
            && (Stops(s, answers) ==> s'.backpressured)
            && (!Stops(s, answers) ==> s'.pending == [] && s'.backpressured == s.backpressured)
            && (s.pending != [] ==> |s'.pending| < |s.pending|)
    decreases |s.pending|
  {
    if s.pending != [] {
      PushFirstKeeps(s);
      if answers(s.pushes) { FlushWritesKeeps(PushFirst(s), answers); }
    }
  }

  /** The log entries of the end: its chunk if it has one, the end-of-stream, its callback. */
  lemma LogEnd(log: seq<Out>, final: FinalEnd)
    ensures var log' := log + (if final.chunk.Some? then [Pushed(final.chunk.value)] else []) + [Ended] + Callback(final.done);
            && PushedChunks(log') == PushedChunks(log) + Maybe(final.chunk)
            && CalledBack(log') == CalledBack(log) + Maybe(final.done)
            && Drains(log') == Drains(log) && Ends(log') == Ends(log) + 1
  {
    var log1 := if final.chunk.Some? then log + [Pushed(final.chunk.value)] else log;
    if final.chunk.Some? { LogSnoc(log, Pushed(final.chunk.value)); }
    LogSnoc(log1, Ended);
    LogCallback(log1 + [Ended], final.done);
    assert log + (if final.chunk.Some? then [Pushed(final.chunk.value)] else []) == log1;
  }

  lemma DeliverEndKeeps(s: Stream)
    requires s.pending == []
    ensures var s' := DeliverEnd(s);
            && Content(s') == Content(s) && Completed(s') == Completed(s) && Drains(s'.log) == Drains(s.log)
            && Ends(s'.log) == Ends(s.log) + (if s.end.Some? then 1 else 0)
  {
    if s.end.Some? { LogEnd(s.log, s.end.value); }
  }

  lemma FinishFlushKeeps(s: Stream)
    requires s.pending == []
    ensures var s' := FinishFlush(s);
            && Content(s') == Content(s) && Completed(s') == Completed(s)
            && Drains(s'.log) == Drains(s.log) + (if s.backpressured then 1 else 0)
            && Ends(s'.log) == Ends(s.log) + (if s.end.Some? then 1 else 0)
  {
    var s0 := s.(backpressured := false);
    DeliverEndKeeps(s0);
    LogSnoc(DeliverEnd(s0).log, Drained);
  }

  /** A completed flush leaves nothing buffered; one cut short leaves the flag set. */
  lemma FlushKeeps(s: Stream, answers: Answers)
    ensures var s' := Flush(s, answers);
            && Content(s') == Content(s) && Completed(s') == Completed(s)
            && Drains(s'.log) == Drains(s.log) + (if s.backpressured && !s'.backpressured then 1 else 0)
            && Ends(s'.log) == Ends(s.log) + (if s.end.Some? && s'.end.None? then 1 else 0)
            && (s'.end == s.end || s'.end.None?)
            && (!s'.backpressured ==> s'.pending == [] && s'.end.None?)
            && s'.connecting == s.connecting && (s'.connecting ==> s'.flushScheduled)
  {
    if !s.connecting {
      FlushWritesKeeps(s, answers);
      if !Stops(s, answers) { FinishFlushKeeps(FlushWrites(s, answers)); }
    }
  }

  /** Pending data or a pending end imply the flag; while connecting, a flush is scheduled. */
  predicate Waiting(s: Stream) {
    && (s.pending != [] || s.end.Some? ==> s.backpressured)
    && (s.backpressured && s.connecting ==> s.flushScheduled)
  }

  /** "drain" is emitted exactly when a flush clears the backpressure flag. */
  lemma StepKeeps(s: Stream, op: Op, answers: Answers)
    requires Waiting(s)
    ensures var s' := Step(s, op, answers);
            && Waiting(s')
            && Drains(s'.log) == Drains(s.log) + (if s.backpressured && !s'.backpressured then 1 else 0)
  {
    match op
    case Write(w) => FlushKeeps(s.(pending := s.pending + [w]), answers);
    case End(final) => FlushKeeps(s.(end := Some(final)), answers);
    case Connect =>
    case Ready => FlushKeeps(s.(flushScheduled := false), answers);
    case Read => FlushKeeps(s, answers);
  }

  /** Over every use whatever: buffered data is never forgotten by the backpressure flag. */
  lemma {:induction false} NothingIsStranded(ops: seq<Op>, answers: Answers)
    ensures Waiting(Run(ops, answers))
  {
    if ops != [] {
      NothingIsStranded(Init(ops), answers);
      StepKeeps(Run(Init(ops), answers), Last(ops), answers);
    }
  }

  // ---------------------------------------------------------------------
  // Whole runs
  // ---------------------------------------------------------------------

  /** What an operation adds to the stream, and to the callbacks. */
  function Adds(op: Op): (seq<Chunk>, seq<nat>) {
    match op
    case Write(w) => ([w.chunk], Maybe(w.done))
    case End(final) => (Maybe(final.chunk), Maybe(final.done))
    case _ => ([], [])
  }

  lemma StepContent(s: Stream, op: Op, answers: Answers)
    requires op.Write? || op.End? ==> s.end.None?
    ensures Content(Step(s, op, answers)) == Content(s) + Adds(op).0
    ensures Completed(Step(s, op, answers)) == Completed(s) + Adds(op).1
  {
    match op
    case Write(w) =>
      WriteContent(s, w);
      FlushKeeps(s.(pending := s.pending + [w]), answers);
    case End(final) =>
      EndContent(s, final);
      FlushKeeps(s.(end := Some(final)), answers);
    case Connect =>
    case Ready => FlushKeeps(s.(flushScheduled := false), answers);
    case Read => FlushKeeps(s, answers);
  }

  lemma WriteContent(s: Stream, w: Pending)
    requires s.end.None?
    ensures var s' := s.(pending := s.pending + [w]);
            Content(s') == Content(s) + [w.chunk] && Completed(s') == Completed(s) + Maybe(w.done)
  {
    PendingSnoc(s.pending, w);
  }

  lemma EndContent(s: Stream, final: FinalEnd)
    requires s.end.None?
    ensures var s' := s.(end := Some(final));
            Content(s') == Content(s) + Maybe(final.chunk) && Completed(s') == Completed(s) + Maybe(final.done)
  {
  }

  lemma StepEnds(s: Stream, op: Op, answers: Answers)
    requires op.End? ==> s.end.None?
    ensures var s' := Step(s, op, answers);
            Ends(s'.log) + (if s'.end.Some? then 1 else 0) ==
              Ends(s.log) + (if s.end.Some? then 1 else 0) + (if op.End? then 1 else 0)
  {
    match op
    case Write(w) => FlushKeeps(s.(pending := s.pending + [w]), answers);
    case End(final) => FlushKeeps(s.(end := Some(final)), answers);
    case Connect =>
    case Ready => FlushKeeps(s.(flushScheduled := false), answers);
    case Read => FlushKeeps(s, answers);
  }

  lemma HasEndSnoc(ops: seq<Op>)
    requires ops != []
    ensures HasEnd(ops) <==> HasEnd(Init(ops)) || Last(ops).End?
  {
    if HasEnd(Init(ops)) {
      var i :| 0 <= i < |Init(ops)| && Init(ops)[i].End?;
      assert ops[i].End?;
    }
    if HasEnd(ops) && !Last(ops).End? {
      var i :| 0 <= i < |ops| && ops[i].End?;
      assert Init(ops)[i].End?;
    }
    if Last(ops).End? {
      assert ops[|ops| - 1].End?;
    }
  }

  /**
   For any writes followed by at most one end, any connect time, any reads and
   any answers of the client: pushed, then buffered, is what was written, in
   order; every callback is called once, in order; and the end-of-stream is
   pushed once if the end was requested and is not buffered any more.
   */
  lemma {:induction false} StreamInOrder(ops: seq<Op>, answers: Answers)
    requires WellUsed(ops)
    ensures Content(Run(ops, answers)) == Written(ops)
    ensures Completed(Run(ops, answers)) == Callbacks(ops)
    ensures Ends(Run(ops, answers).log) + (if Run(ops, answers).end.Some? then 1 else 0) == (if HasEnd(ops) then 1 else 0)
  {
    if ops != [] {
      var s := Run(Init(ops), answers);
      StreamInOrder(Init(ops), answers);
      HasEndSnoc(ops);
      StepContent(s, Last(ops), answers);
      StepEnds(s, Last(ops), answers);
    }
  }

  /** Until the end was pushed there is none in the log; afterwards nothing is left to push. */
  predicate Orderly(s: Stream) {
    EndIsLast(s.log) && (Ends(s.log) > 0 ==> s.pending == [] && s.end.None?)
  }

  lemma {:induction false} NoEnds(log: seq<Out>, i: nat)
    requires Ends(log) == 0 && i < |log|
    ensures !log[i].Ended?
  {
    if i < |log| - 1 {
      NoEnds(Init(log), i);
    }
  }

  lemma AppendOrderly(log: seq<Out>, more: seq<Out>)
    requires EndIsLast(log) && EndIsLast(more)
    requires Ends(log) == 0 || forall i :: 0 <= i < |more| ==> !more[i].Pushed? && !more[i].Ended?
    ensures EndIsLast(log + more)
  {
    var all := log + more;
    forall i, j | 0 <= i < j < |all| && all[i].Ended? ensures !all[j].Pushed? && !all[j].Ended? {
      if i < |log| && Ends(log) == 0 { NoEnds(log, i); }
      if i >= |log| { assert more[i - |log|].Ended? && more[j - |log|] == all[j]; }
    }
  }

  lemma {:induction false} FlushWritesOrderly(s: Stream, answers: Answers)
    requires Orderly(s)
    ensures Orderly(FlushWrites(s, answers))
    decreases |s.pending|
  {
    if s.pending != [] {
      var w := s.pending[0];
      PushFirstKeeps(s);
      AppendOrderly(s.log, [Pushed(w.chunk)]);
      LogSnoc(s.log, Pushed(w.chunk));
      AppendOrderly(s.log + [Pushed(w.chunk)], Callback(w.done));
      if answers(s.pushes) { FlushWritesOrderly(PushFirst(s), answers); }
    }
  }

  lemma EndEntriesOrderly(final: FinalEnd)
    ensures EndIsLast((if final.chunk.Some? then [Pushed(final.chunk.value)] else []) + [Ended] + Callback(final.done))
  {
  }

  lemma DeliverEndOrderly(s: Stream)
    requires Orderly(s) && s.pending == []
    ensures EndIsLast(DeliverEnd(s).log)
  {
    if s.end.Some? {
      var final := s.end.value;
      var chunk := if final.chunk.Some? then [Pushed(final.chunk.value)] else [];
      var more := chunk + [Ended] + Callback(final.done);
      assert DeliverEnd(s).log == s.log + more;
      EndEntriesOrderly(final);
      AppendOrderly(s.log, more);
    }
  }

  lemma FinishFlushOrderly(s: Stream)
    requires Orderly(s) && s.pending == []
    ensures Orderly(FinishFlush(s))
  {
    var s0 := s.(backpressured := false);
    assert Orderly(s0);
    DeliverEndOrderly(s0);
    AppendOrderly(DeliverEnd(s0).log, [Drained]);
  }

  lemma FlushOrderly(s: Stream, answers: Answers)
    requires Orderly(s)
    ensures Orderly(Flush(s, answers))
  {
    FlushWritesOrderly(s, answers);
    FlushWritesKeeps(s, answers);
    if !s.connecting && !Stops(s, answers) { FinishFlushOrderly(FlushWrites(s, answers)); }
  }

  /** Over every well-formed use: the end-of-stream is the last thing pushed. */
  lemma {:induction false} EndComesLast(ops: seq<Op>, answers: Answers)
    requires WellUsed(ops)
    ensures Orderly(Run(ops, answers))
  {
    if ops != [] {
      var s, op := Run(Init(ops), answers), Last(ops);
      EndComesLast(Init(ops), answers);
      StreamInOrder(Init(ops), answers);
      match op
      case Write(w) => if !s.backpressured { FlushOrderly(s.(pending := s.pending + [w]), answers); }
      case End(final) => FlushOrderly(s.(end := Some(final)), answers);
      case Connect =>
      case Ready => FlushOrderly(s.(flushScheduled := false), answers);
      case Read => FlushOrderly(s, answers);
    }
  }

  // ---------------------------------------------------------------------
  // Progress
  // ---------------------------------------------------------------------

  function Reads(s: Stream, n: nat, answers: Answers): Stream
    decreases n
  {
    if n == 0 then s else Reads(DoRead(s, answers), n - 1, answers)
  }

  /** Once connected, one read per buffered write and one more deliver everything, whatever the client answers. */
  lemma {:induction false} EnoughReadsDeliver(s: Stream, n: nat, answers: Answers)
    requires Waiting(s) && !s.connecting && n > |s.pending|
    ensures var s' := Reads(s, n, answers);
            s'.pending == [] && s'.end.None? && PushedChunks(s'.log) == Content(s)
    decreases n
  {
    var s1 := DoRead(s, answers);
    FlushKeeps(s, answers);
    FlushWritesKeeps(s, answers);
    StepKeeps(s, Read, answers);
    if s.pending == [] {
      assert s1.pending == [] && s1.end.None?;
      ReadingIsIdle(s1, n - 1, answers);
    } else {
      hide Stops, FinishFlush, Content, Completed, Drains, Ends;
      EnoughReadsDeliver(s1, n - 1, answers);
    }
  }

  lemma {:induction false} ReadingIsIdle(s: Stream, n: nat, answers: Answers)
    requires s.pending == [] && s.end.None? && !s.connecting
    ensures var s' := Reads(s, n, answers);
            s'.pending == [] && s'.end.None? && PushedChunks(s'.log) == Content(s)
    decreases n
  {
    if n > 0 {
      FlushKeeps(s, answers);
      FinishFlushKeeps(s);
      ReadingIsIdle(DoRead(s, answers), n - 1, answers);
    }
  }
}

/** The proxy's own buffer, flag and loop. */
module ServerSocketProxy {
  import opened Prelude
  import opened S = ServerStream
  import opened ServerFlushing

  class ServerSocket {
    const answers: Answers
    var pendingWrites: seq<Pending>
    var pendingEnd: Option<FinalEnd>
    var isBackpressured: bool
    var isFlushScheduled: bool
    var connecting: bool
    var pushes: nat
    ghost var log: seq<Out>

    ghost function Model(): Stream
      reads this
    {
      Stream(pendingWrites, pendingEnd, isBackpressured, isFlushScheduled, connecting, pushes, log)
    }

    constructor (answers: Answers)
      ensures Model() == Fresh && this.answers == answers
    {
      this.answers := answers;
      pendingWrites, pendingEnd, isBackpressured, isFlushScheduled := [], None, false, false;
      connecting, pushes, log := true, 0, [];
    }

    /** Push a chunk to the client; the answer says whether it can take more. */
    method Push(chunk: Chunk) returns (canPushMore: bool)
      modifies this`pushes, this`log
      ensures pushes == old(pushes) + 1 && log == old(log) + [Pushed(chunk)] && canPushMore == answers(old(pushes))
    {
      canPushMore := answers(pushes);
      pushes := pushes + 1;
      log := log + [Pushed(chunk)];
    }

    /** Deliver the final chunk, if any, and then the end-of-stream. */
    method DeliverPendingEnd()
      modifies this`pendingEnd, this`pushes, this`log
      ensures Model() == DeliverEnd(old(Model()))
    {
      if pendingEnd.None? {
        return;
      }
      var finalEnd := pendingEnd.value;
      pendingEnd := None;
      if finalEnd.chunk.Some? {
        var _ := Push(finalEnd.chunk.value);
      }
      log := log + [Ended] + Callback(finalEnd.done);
    }

    method FlushPendingWrites() returns (flushed: bool)
      modifies this
      ensures Model() == Flush(old(Model()), answers)
      ensures flushed == !isBackpressured
    {
      if connecting {
        isBackpressured := true;
        isFlushScheduled := true;
        return false;
      }
      ghost var s0 := Model();
      while pendingWrites != []
        invariant FlushWrites(s0, answers) == FlushWrites(Model(), answers)
        invariant Stops(s0, answers) == Stops(Model(), answers)
        invariant isBackpressured == s0.backpressured
        decreases |pendingWrites|
      {
        var nextWrite := pendingWrites[0];
        pendingWrites := pendingWrites[1..];
        var canPushMore := Push(nextWrite.chunk);
        log := log + Callback(nextWrite.done);
        if !canPushMore {
          isBackpressured := true;
          return false;
        }
      }
      var wasBackpressured := isBackpressured;
      isBackpressured := false;
      DeliverPendingEnd();
      if wasBackpressured {
        log := log + [Drained];
      }
      return true;
    }

    method Write(chunk: Chunk, done: Option<nat>) returns (flushed: bool)
      modifies this
      ensures Model() == DoWrite(old(Model()), Pending(chunk, done), answers)
      ensures flushed == !isBackpressured
      ensures Waiting(old(Model())) && !old(connecting) && !old(isBackpressured) ==>
                WritePushed(old(Model()), Model(), Pending(chunk, done), answers)
    {
      ghost var s := Model();
      if Waiting(s) && !s.connecting && !s.backpressured { RoomyWrite(s, Pending(chunk, done), answers); }
      hide WritePushed;
      pendingWrites := pendingWrites + [Pending(chunk, done)];
      if isBackpressured {
        return false;
      }
      flushed := FlushPendingWrites();
    }

    method End(chunk: Option<Chunk>, done: Option<nat>)
      modifies this
      ensures Model() == Step(old(Model()), Op.End(FinalEnd(chunk, done)), answers)
    {
      pendingEnd := Some(FinalEnd(chunk, done));
      var _ := FlushPendingWrites();
    }

    /** The client asks for more data. */
    method OnRead()
      modifies this
      ensures Model() == DoRead(old(Model()), answers)
    {
      if pendingWrites != [] || pendingEnd.Some? || isBackpressured {
        var _ := FlushPendingWrites();
      }
    }

    /** The mocked connection is established. */
    method OnReady()
      modifies this
      ensures Model() == DoReady(old(Model()), answers)
      ensures old(isFlushScheduled) && !old(connecting) ==>
                PushedOn(old(Model()).(flushScheduled := false), Model(), answers)
    {
      hide PushedOn;
      if isFlushScheduled {
        isFlushScheduled := false;
        if !connecting { FlushPushes(Model(), answers); }
        var _ := FlushPendingWrites();
      }
    }

    /** The client is connected: from now on data may be pushed to it. */
    method OnConnect()
      modifies this`connecting
      ensures Model() == old(Model()).(connecting := false)
    {
      connecting := false;
    }

    method Perform(op: Op)
      modifies this
      ensures Model() == Step(old(Model()), op, answers)
    {
      match op
      case Write(w) => var _ := Write(w.chunk, w.done);
      case End(final) => End(final.chunk, final.done);
      case Connect => OnConnect();
      case Ready => OnReady();
      case Read => OnRead();
    }

    /** The client reads on: once for every buffered write, and once more. */
    method ReadAll()
      modifies this
      ensures Model() == Reads(old(Model()), |old(pendingWrites)| + 1, answers)
    {
      var left: nat := |pendingWrites| + 1;
      ghost var final := Reads(Model(), left, answers);
      while left > 0
        invariant Reads(Model(), left, answers) == final
      {
        OnRead();
        left := left - 1;
      }
    }
  }

  lemma WaitsOrGot(ops: seq<Op>, answers: Answers)
    ensures var s := Run(ops, answers);
            && Waiting(s.(connecting := false)) && Content(s.(connecting := false)) == Content(s)
            && (WellUsed(ops) ==> Content(s) == Written(ops))
  {
    NothingIsStranded(ops, answers);
    if WellUsed(ops) { StreamInOrder(ops, answers); }
  }

  /** Any use of the socket, and then a connected client that reads on: it gets all that was written. */
  method Live(ops: seq<Op>, answers: Answers) returns (s: ServerSocket)
    ensures fresh(s) && s.answers == answers
    ensures s.pendingWrites == [] && s.pendingEnd == None
    ensures WellUsed(ops) ==> PushedChunks(s.log) == Written(ops)
  {
    s := new ServerSocket(answers);
    for i := 0 to |ops|
      invariant fresh(s) && s.answers == answers && s.Model() == Run(ops[..i], answers)
    {
      assert Init(ops[..i + 1]) == ops[..i];
      s.Perform(ops[i]);
    }
    assert ops[..|ops|] == ops;
    WaitsOrGot(ops, answers);
    s.OnConnect();
    EnoughReadsDeliver(s.Model(), |s.pendingWrites| + 1, answers);
    s.ReadAll();
  }
}
