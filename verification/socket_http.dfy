/**
 HTTP requests on a kept-alive socket: the message boundaries, the verdicts and the resets,
 driving the controller, make its exchanges the requests, whatever else happens in between.
 */
module SocketHttp {
  import opened Prelude
  import opened SocketMachine
  import opened SocketIsolation

  datatype HttpVerdict = Mock | Forward(rewrite: Option<Rewrite>)

  /** When the end of the message was parsed: "Unseen" if not before the next message began. */
  datatype Parsing = BeforeVerdict | AfterVerdict | Unseen

  /**
   A request: the chunks written up to its verdict, at least one, and those written after
   it. The verdict may come while the last chunk up to it is still being pushed. With later
   chunks the end of the message is not parsed before the verdict. "freed" says whether the
   controller was reset when the exchange was over: the agent freed the socket, or it was
   retargeted to a tunnel.
   */
  datatype HttpRequest = HttpRequest(
    held: seq<Data>,
    later: seq<Data>,
    verdict: HttpVerdict,
    parsed: Parsing,
    freed: bool)

  /** What matters of an event to the exchanges; "Renewed" is a reset while a write is pushed, "Freed" any other. */
  datatype Mark = Wrote(data: Data) | Decided(verdict: HttpVerdict) | Boundary | Freed | Renewed

  /** The exchanges, kept by a much simpler machine: no buffers, no connections, no reads. */
  datatype Book = Book(past: seq<Exchange>, open: Exchange, closing: bool, made: nat)

  const NoWrites := Exchange([], Undecided)

  const Blank := Book([], NoWrites, false, 0)

  function VerdictOf(v: HttpVerdict, held: nat): Verdict {
    match v
    case Mock => Mocked
    case Forward(rewrite) => Passed(rewrite, held)
  }

  /** The open exchange, if it is decided, is over. */
  function Turn(b: Book): Book {
    if b.open.verdict.Undecided? then b else Book(b.past + [b.open], NoWrites, false, b.made)
  }

  /** The book once a boundary took effect. */
  function TurnPage(b: Book): Book {
    if b.closing then Turn(b) else b
  }

  /** The open exchange, if it is decided, is over without its last write, which begins the next one. */
  function TurnBack(b: Book): Book {
    if b.open.writes == [] || b.open.verdict.Undecided? then b else
      var ended := b.open.(writes := Init(b.open.writes));
      Book(b.past + [ended], Exchange([Last(b.open.writes)], Undecided), false, b.made)
  }

  function Note(b: Book, mark: Mark): Book {
    match mark
    case Wrote(data) =>
      var b1 := TurnPage(b);
      b1.(open := b1.open.(writes := b1.open.writes + [Write(b.made, data)]), made := b.made + 1)
    case Decided(v) =>
      if b.open.verdict.Undecided? then b.(open := b.open.(verdict := VerdictOf(v, |b.open.writes|))) else b
    case Boundary => b.(closing := true)
    case Freed => Turn(b)
    case Renewed => TurnBack(b)
  }

  function NoteAll(b: Book, marks: seq<Mark>): Book {
    if marks == [] then b else Note(NoteAll(b, Init(marks)), Last(marks))
  }

  // ---------------------------------------------------------------------
  // The controller keeps that book
  // ---------------------------------------------------------------------

  /** Boundaries are always noted; of verdicts and resets, those the controller takes. */
  function ActMark(m: Machine, a: Action, pushing: bool): seq<Mark> {
    if a.ScheduleReset? then [Boundary] else if !Changes(m, a) then [] else
      match a
      case Claim => [Decided(Mock)]
      case Pass(rewrite) => [Decided(Forward(rewrite))]
      case Reset(_) => [if pushing then Renewed else Freed]
  }

  function ActMarks(m: Machine, acts: seq<Action>, pushing: bool): seq<Mark> {
    if acts == [] then [] else
      ActMarks(m, Init(acts), pushing) + ActMark(ActAll(m, Init(acts)), Last(acts), pushing)
  }

  /** A push that nobody listens for yet is put off, and with it whatever its listeners do. */
  predicate PutOff(m: Machine, e: Event)
    requires e.ClientWrite?
  {
    Buffer(m, e.data, e.callback).ctl.readyState == Pending && !e.listening
  }

  function PushMarks(m: Machine, e: Event): seq<Mark>
    requires e.ClientWrite?
  {
    if PutOff(m, e) then [] else ActMarks(AtPush(m, e.data, e.callback), e.acts, true)
  }

  function MarksOf(m: Machine, e: Event): seq<Mark> {
    match e
    case ClientWrite(data, _, _, acts) => [Wrote(data)] + PushMarks(m, e)
    case DeferredPush(acts) => if m.log.owed == [] then [] else ActMarks(ShowOwed(m), acts, false)
    case Perform(act) => ActMark(m, act, false)
    case _ => []
  }

  function MarksIn(m: Machine, events: seq<Event>): seq<Mark> {
    if events == [] then [] else MarksIn(m, Init(events)) + MarksOf(Run(m, Init(events)), Last(events))
  }

  ghost predicate Matches(m: Machine, b: Book) {
    && m.log.past == b.past && m.log.open == b.open && m.log.made == b.made
    && m.ctl.resetScheduled == b.closing
    && (m.ctl.readyState == Pending <==> b.open.verdict.Undecided?)
    && (m.ctl.readyState == Pending ==> |m.ctl.buffered| == |b.open.writes|)
  }

  lemma {:induction false} NoteConcat(b: Book, a: seq<Mark>, c: seq<Mark>)
    ensures NoteAll(b, a + c) == NoteAll(NoteAll(b, a), c)
  {
    if c == [] {
      assert a + c == a;
    } else {
      assert Init(a + c) == a + Init(c);
      NoteConcat(b, a, Init(c));
    }
  }

  /** The marks of one action: one or none. */
  lemma NoteFew(b: Book, marks: seq<Mark>)
    requires |marks| <= 1
    ensures NoteAll(b, marks) == if marks == [] then b else Note(b, marks[0])
  {
    if marks != [] {
      assert Init(marks) == [] && NoteAll(b, []) == b;
    }
  }

  /** The book has the write in flight; the machine records it when the push is over. */
  ghost predicate InFlight(m: Machine, b: Book, w: Write) {
    && m.log.past == b.past && b.open == m.log.open.(writes := m.log.open.writes + [w])
    && m.log.made + 1 == b.made
    && m.ctl.resetScheduled == b.closing
    && (m.ctl.readyState == Pending <==> b.open.verdict.Undecided?)
  }

  ghost predicate Pushing(m: Machine, b: Book, w: Write) {
    InFlight(m, b, w) &&
    (m.ctl.readyState == Pending ==> |m.ctl.buffered| == |b.open.writes| && IndexOf(m.ctl.buffered, w.id) >= 0)
  }

  /** A reset during the push emptied the buffer. */
  ghost predicate Restarted(m: Machine, b: Book, w: Write) {
    InFlight(m, b, w) && m.ctl.readyState == Pending && m.ctl.buffered == [] && b.open.writes == [w]
  }

  lemma ActPushing(m: Machine, b: Book, w: Write, a: Action)
    requires Pushing(m, b, w)
    ensures var m', b' := Act(m, a), NoteAll(b, ActMark(m, a, true));
            if a.Reset? && Changes(m, a) then Restarted(m', b', w) else Pushing(m', b', w)
  {
    NoteFew(b, ActMark(m, a, true));
    InitOfSnoc(m.log.open.writes, w);
  }

  lemma ActRestarted(m: Machine, b: Book, w: Write, a: Action)
    requires Restarted(m, b, w) && !Changes(m, a)
    ensures Restarted(Act(m, a), NoteAll(b, ActMark(m, a, true)), w)
  {
    NoteFew(b, ActMark(m, a, true));
  }

  lemma {:induction false} ActAllPushing(m: Machine, b: Book, w: Write, acts: seq<Action>)
    requires Pushing(m, b, w) && Transitions(m, acts) <= 1
    ensures var m', b' := ActAll(m, acts), NoteAll(b, ActMarks(m, acts, true));
            Pushing(m', b', w) || (Restarted(m', b', w) && Transitions(m, acts) == 1)
  {
    if acts != [] {
      var before, a := Init(acts), Last(acts);
      var m1, b1 := ActAll(m, before), NoteAll(b, ActMarks(m, before, true));
      ActAllPushing(m, b, w, before);
      NoteConcat(b, ActMarks(m, before, true), ActMark(m1, a, true));
      hide Pushing, Restarted, Act, NoteAll, ActMark, Changes;
      if Pushing(m1, b1, w) { ActPushing(m1, b1, w, a); } else { ActRestarted(m1, b1, w, a); }
    }
  }

  lemma ActMatches(m: Machine, b: Book, a: Action)
    requires Matches(m, b)
    ensures Matches(Act(m, a), NoteAll(b, ActMark(m, a, false)))
  {
    NoteFew(b, ActMark(m, a, false));
  }

  lemma {:induction false} ActAllMatches(m: Machine, b: Book, acts: seq<Action>)
    requires Matches(m, b)
    ensures Matches(ActAll(m, acts), NoteAll(b, ActMarks(m, acts, false)))
  {
    if acts != [] {
      var before := ActMarks(m, Init(acts), false);
      ActAllMatches(m, b, Init(acts));
      ActMatches(ActAll(m, Init(acts)), NoteAll(b, before), Last(acts));
      NoteConcat(b, before, ActMark(ActAll(m, Init(acts)), Last(acts), false));
    }
  }

  /** A scheduled reset takes effect at the next write. */
  lemma BoundaryMatches(m: Machine, b: Book)
    requires Matches(m, b)
    ensures Matches(if m.ctl.resetScheduled then DoReset(m, None) else m, TurnPage(b))
  {
  }

  lemma {:induction false} AppendedPushing(m: Machine, b: Book, data: Data, callback: bool)
    requires Matches(m, b) && (b.closing ==> b.open.verdict.Undecided?)
    ensures Pushing(Appended(m, Write(b.made, data), callback), Note(b, Wrote(data)), Write(b.made, data))
  {
    assert Last(Appended(m, Write(b.made, data), callback).ctl.buffered).write.id == b.made;
  }

  lemma {:induction false} BufferedPushing(m: Machine, b: Book, data: Data, callback: bool)
    requires Matches(m, b)
    ensures Pushing(Buffer(m, data, callback), Note(b, Wrote(data)), Write(b.made, data))
  {
    var m1, b1 := if m.ctl.resetScheduled then DoReset(m, None) else m, TurnPage(b);
    BoundaryMatches(m, b);
    assert m1.log.made == m.log.made && b1.made == b.made;
    assert Buffer(m, data, callback) == Appended(m1, Write(b.made, data), callback);
    assert Note(b, Wrote(data)) == Note(b1, Wrote(data));
    hide Buffer, Appended, Pushing, Matches, DoReset;
    AppendedPushing(m1, b1, data, callback);
  }

  lemma SettledMatches(m: Machine, b: Book, w: Write, callback: bool)
    requires Pushing(m, b, w) || Restarted(m, b, w)
    ensures Matches(Settle(m, w, callback), b)
  {
  }

  lemma {:induction false} PushedMatches(m: Machine, b: Book, e: Event)
    requires e.ClientWrite? && Disciplined(m, e)
    requires Pushing(Buffer(m, e.data, e.callback), b, Write(WriteCount(m), e.data))
    ensures Matches(Step(m, e), NoteAll(b, PushMarks(m, e)))
  {
    var w, m1 := Write(WriteCount(m), e.data), Buffer(m, e.data, e.callback);
    var m2 := Push(m1, w, e.listening, e.acts);
    if PutOff(m, e) {
      assert m2 == m1.(log := m1.log.(owed := m1.log.owed + [w]));
      assert NoteAll(b, []) == b;
    } else {
      assert m2 == ActAll(AtPush(m, e.data, e.callback), e.acts);
      assert Pushing(AtPush(m, e.data, e.callback), b, w);
      hide ActAll, ActMarks, Pushing, Restarted, NoteAll;
      ActAllPushing(AtPush(m, e.data, e.callback), b, w, e.acts);
    }
    hide Pushing, Restarted, Buffer, Push, Settle, ActAll, NoteAll, ActMarks;
    SettledMatches(m2, NoteAll(b, PushMarks(m, e)), w, e.callback);
  }

  lemma {:induction false} WriteMatches(m: Machine, b: Book, e: Event)
    requires Matches(m, b) && e.ClientWrite? && Disciplined(m, e)
    ensures Matches(Step(m, e), NoteAll(b, MarksOf(m, e)))
  {
    BufferedPushing(m, b, e.data, e.callback);
    NoteConcat(b, [Wrote(e.data)], PushMarks(m, e));
    NoteFew(b, [Wrote(e.data)]);
    hide Buffer, Step, NoteAll, PushMarks, Pushing, Note;
    PushedMatches(m, Note(b, Wrote(e.data)), e);
  }

  lemma {:induction false} OtherMatches(m: Machine, b: Book, e: Event)
    requires Matches(m, b) && !e.ClientWrite? && !Step(m, e).client.closed
    ensures Matches(Step(m, e), NoteAll(b, MarksOf(m, e)))
  {
    if ReadsOnly(e) {
      ReadStepKeepsWriteSide(m, e);
    } else if e.Perform? {
      ActMatches(m, b, e.act);
    } else if e.DeferredPush? && m.log.owed != [] {
      ActAllMatches(ShowOwed(m), b, e.acts);
    }
  }

  /** While the client socket is not closed, the exchanges are what the book says, whoever resets the controller. */
  lemma {:induction false} RunIsBook(original: Target, events: seq<Event>)
    requires DisciplinedRun(Start(original), events) && !Run(Start(original), events).client.closed
    ensures Matches(Run(Start(original), events), NoteAll(Blank, MarksIn(Start(original), events)))
  {
    if events != [] {
      var m, e := Run(Start(original), Init(events)), Last(events);
      if m.client.closed { StepStaysClosed(m, e); }
      RunIsBook(original, Init(events));
      var before := MarksIn(Start(original), Init(events));
      NoteConcat(Blank, before, MarksOf(m, e));
      if e.ClientWrite? { WriteMatches(m, NoteAll(Blank, before), e); } else { OtherMatches(m, NoteAll(Blank, before), e); }
    }
  }

  predicate NoReset(acts: seq<Action>) {
    acts == [] || (NoReset(Init(acts)) && !Last(acts).Reset?)
  }

  predicate NoVerdict(acts: seq<Action>) {
    acts == [] || (NoVerdict(Init(acts)) && !Last(acts).Claim? && !Last(acts).Pass?)
  }

  /** No push both resets the controller and gives a verdict. */
  predicate HttpEvents(events: seq<Event>) {
    events == [] ||
    (HttpEvents(Init(events)) && (Last(events).ClientWrite? ==> NoReset(Last(events).acts) || NoVerdict(Last(events).acts)))
  }

  /** Without a reset only the first verdict of a push changes the controller. */
  lemma {:induction false} OneVerdictChanges(m: Machine, acts: seq<Action>)
    requires NoReset(acts)
    ensures Transitions(m, acts) ==
            (if m.ctl.readyState == Pending && ActAll(m, acts).ctl.readyState != Pending then 1 else 0)
    ensures m.ctl.readyState != Pending ==> ActAll(m, acts).ctl.readyState != Pending
  {
    if acts != [] { OneVerdictChanges(m, Init(acts)); }
  }

  /** Without a verdict only the first reset does. */
  lemma {:induction false} OneResetChanges(m: Machine, acts: seq<Action>)
    requires NoVerdict(acts)
    ensures Transitions(m, acts) ==
            (if m.ctl.readyState != Pending && ActAll(m, acts).ctl.readyState == Pending then 1 else 0)
    ensures m.ctl.readyState == Pending ==> ActAll(m, acts).ctl.readyState == Pending
  {
    if acts != [] { OneResetChanges(m, Init(acts)); }
  }

  lemma {:induction false} HttpIsDisciplined(m: Machine, events: seq<Event>)
    requires HttpEvents(events)
    ensures DisciplinedRun(m, events)
  {
    if events != [] {
      HttpIsDisciplined(m, Init(events));
      var before, e := Run(m, Init(events)), Last(events);
      if e.ClientWrite? {
        var m1 := AtPush(before, e.data, e.callback);
        if NoReset(e.acts) { OneVerdictChanges(m1, e.acts); } else { OneResetChanges(m1, e.acts); }
      }
    }
  }

  // ---------------------------------------------------------------------
  // The book of a list of requests
  // ---------------------------------------------------------------------

  function WritesFrom(made: nat, chunks: seq<Data>): seq<Write> {
    seq(|chunks|, i requires 0 <= i < |chunks| => Write(made + i, chunks[i]))
  }

  function Chunks(r: HttpRequest): seq<Data> {
    r.held + r.later
  }

  /** Every request writes something before its verdict. */
  predicate Begun(requests: seq<HttpRequest>) {
    requests == [] || (Begun(Init(requests)) && Last(requests).held != [])
  }

  function Made(requests: seq<HttpRequest>): nat {
    if requests == [] then 0 else Made(Init(requests)) + |Chunks(Last(requests))|
  }

  function ExchangeOf(r: HttpRequest, made: nat): Exchange {
    Exchange(WritesFrom(made, Chunks(r)), VerdictOf(r.verdict, |r.held|))
  }

  function ExchangesOf(requests: seq<HttpRequest>): seq<Exchange> {
    if requests == [] then [] else
      ExchangesOf(Init(requests)) + [ExchangeOf(Last(requests), Made(Init(requests)))]
  }

  function Wrotes(chunks: seq<Data>): seq<Mark> {
    seq(|chunks|, i requires 0 <= i < |chunks| => Wrote(chunks[i]))
  }

  /** The first chunks of a request; if the one before was not known to be over, parsing this one resets the controller. */
  function FirstMarks(chunks: seq<Data>, renews: bool): seq<Mark> {
    if renews && chunks != [] then [Wrote(chunks[0]), Renewed] + Wrotes(chunks[1..]) else Wrotes(chunks)
  }

  function VerdictMarks(r: HttpRequest): seq<Mark> {
    if r.later == [] && r.parsed == BeforeVerdict then [Boundary] + [Decided(r.verdict)]
    else [Decided(r.verdict)] + Wrotes(r.later) + (if r.parsed == Unseen then [] else [Boundary])
  }

  function RequestMarks(r: HttpRequest, renews: bool): seq<Mark> {
    FirstMarks(r.held, renews) + VerdictMarks(r) + (if r.freed then [Freed] else [])
  }

  /** Nothing has ended the exchange of the last request. */
  predicate Lingers(requests: seq<HttpRequest>) {
    requests != [] && Last(requests).parsed == Unseen && !Last(requests).freed
  }

  /** One request after another: the next one's first chunk comes after this one's verdict. */
  function AllMarks(requests: seq<HttpRequest>): seq<Mark> {
    if requests == [] then [] else
      AllMarks(Init(requests)) + RequestMarks(Last(requests), Lingers(Init(requests)))
  }

  /** Nothing was written in it, and nothing decided. */
  predicate Untouched(x: Exchange) {
    x.writes == [] && x.verdict.Undecided?
  }

  /** The exchanges of a book, without an open one that nothing was written in. */
  function Done(b: Book): seq<Exchange> {
    if Untouched(b.open) then b.past else b.past + [b.open]
  }

  /** Ready for the next request. */
  predicate Ready(b: Book, renews: bool) {
    if Untouched(b.open) then !b.closing && !renews
    else !b.open.verdict.Undecided? && (b.closing <==> !renews)
  }

  /** Chunks written into an exchange that is not over. */
  lemma {:induction false} ChunksNoted(b: Book, chunks: seq<Data>)
    requires !b.closing || b.open.verdict.Undecided?
    ensures NoteAll(b, Wrotes(chunks)) ==
            b.(open := b.open.(writes := b.open.writes + WritesFrom(b.made, chunks)), made := b.made + |chunks|)
  {
    if chunks == [] {
      assert b.open.writes + WritesFrom(b.made, chunks) == b.open.writes;
    } else {
      assert Init(Wrotes(chunks)) == Wrotes(Init(chunks));
      ChunksNoted(b, Init(chunks));
      assert WritesFrom(b.made, chunks) == WritesFrom(b.made, Init(chunks)) + [Write(b.made + |chunks| - 1, Last(chunks))];
      assert b.open.writes + WritesFrom(b.made, chunks) ==
             b.open.writes + WritesFrom(b.made, Init(chunks)) + [Write(b.made + |chunks| - 1, Last(chunks))];
    }
  }

  /** The first chunk begins a new exchange, however the one before it ended. */
  lemma {:induction false} FirstChunkNoted(b: Book, first: Data, renews: bool)
    requires Ready(b, renews)
    ensures var b1 := Book(Done(b), Exchange([Write(b.made, first)], Undecided), false, b.made + 1);
            if renews then Note(Note(b, Wrote(first)), Renewed) == b1 else Note(b, Wrote(first)) == b1
  {
    var w := Write(b.made, first);
    InitOfSnoc(b.open.writes, w);
    assert [] + [w] == [w];
  }

  /** With the reset, if it takes one. */
  function BeginMarks(first: Data, renews: bool): seq<Mark> {
    if renews then [Wrote(first)] + [Renewed] else [Wrote(first)]
  }

  lemma {:induction false} BeginNoted(b: Book, first: Data, renews: bool)
    requires Ready(b, renews)
    ensures NoteAll(b, BeginMarks(first, renews)) ==
            Book(Done(b), Exchange([Write(b.made, first)], Undecided), false, b.made + 1)
  {
    FirstChunkNoted(b, first, renews);
    hide Note, Done, Ready;
    NoteFew(b, [Wrote(first)]);
    if renews {
      NoteConcat(b, [Wrote(first)], [Renewed]);
      NoteFew(Note(b, Wrote(first)), [Renewed]);
    }
  }

  lemma WritesFromFirst(made: nat, chunks: seq<Data>)
    requires chunks != []
    ensures WritesFrom(made, chunks) == [Write(made, chunks[0])] + WritesFrom(made + 1, chunks[1..])
  {
  }

  lemma {:induction false} FirstChunksNoted(b: Book, chunks: seq<Data>, renews: bool)
    requires chunks != [] && Ready(b, renews)
    ensures NoteAll(b, FirstMarks(chunks, renews)) ==
            Book(Done(b), Exchange(WritesFrom(b.made, chunks), Undecided), false, b.made + |chunks|)
  {
    var first, rest := chunks[0], chunks[1..];
    assert FirstMarks(chunks, renews) == BeginMarks(first, renews) + Wrotes(rest);
    hide *;
    NoteConcat(b, BeginMarks(first, renews), Wrotes(rest));
    BeginNoted(b, first, renews);
    ChunksNoted(NoteAll(b, BeginMarks(first, renews)), rest);
    WritesFromFirst(b.made, chunks);
  }

  lemma HeldThenLater(r: HttpRequest, made: nat)
    ensures WritesFrom(made, Chunks(r)) == WritesFrom(made, r.held) + WritesFrom(made + |r.held|, r.later)
    ensures |Chunks(r)| == |r.held| + |r.later| && |WritesFrom(made, r.held)| == |r.held|
  {
  }

  /** From the chunks up to the verdict to the end of the message. */
  lemma {:induction false} VerdictNoted(b: Book, r: HttpRequest, made: nat)
    requires b.open == Exchange(WritesFrom(made, r.held), Undecided) && !b.closing && b.made == made + |r.held|
    ensures NoteAll(b, VerdictMarks(r)) ==
            Book(b.past, ExchangeOf(r, made), r.parsed != Unseen, made + |Chunks(r)|)
  {
    HeldThenLater(r, made);
    if r.later == [] && r.parsed == BeforeVerdict {
      NoteConcat(b, [Boundary], [Decided(r.verdict)]);
      NoteFew(b, [Boundary]);
      NoteFew(Note(b, Boundary), [Decided(r.verdict)]);
      assert Chunks(r) == r.held;
    } else {
      LongVerdictNoted(b, r, made);
    }
  }

  lemma {:induction false} LongVerdictNoted(b: Book, r: HttpRequest, made: nat)
    requires b.open == Exchange(WritesFrom(made, r.held), Undecided) && !b.closing && b.made == made + |r.held|
    requires r.later != [] || r.parsed != BeforeVerdict
    ensures NoteAll(b, VerdictMarks(r)) ==
            Book(b.past, ExchangeOf(r, made), r.parsed != Unseen, made + |Chunks(r)|)
  {
    var end := if r.parsed == Unseen then [] else [Boundary];
    HeldThenLater(r, made);
    NoteConcat(b, [Decided(r.verdict)] + Wrotes(r.later), end);
    NoteConcat(b, [Decided(r.verdict)], Wrotes(r.later));
    NoteFew(b, [Decided(r.verdict)]);
    var b1 := Note(b, Decided(r.verdict));
    assert b1 == Book(b.past, Exchange(WritesFrom(made, r.held), VerdictOf(r.verdict, |r.held|)), false, b.made);
    hide NoteAll, Wrotes, WritesFrom;
    ChunksNoted(b1, r.later);
    NoteFew(NoteAll(b1, Wrotes(r.later)), end);
  }

  lemma {:induction false} RequestNoted(b: Book, r: HttpRequest, renews: bool)
    requires r.held != [] && Ready(b, renews)
    ensures NoteAll(b, RequestMarks(r, renews)) ==
            if r.freed then Book(Done(b) + [ExchangeOf(r, b.made)], NoWrites, false, b.made + |Chunks(r)|)
            else Book(Done(b), ExchangeOf(r, b.made), r.parsed != Unseen, b.made + |Chunks(r)|)
  {
    var freed := if r.freed then [Freed] else [];
    NoteConcat(b, FirstMarks(r.held, renews) + VerdictMarks(r), freed);
    NoteConcat(b, FirstMarks(r.held, renews), VerdictMarks(r));
    FirstChunksNoted(b, r.held, renews);
    VerdictNoted(NoteAll(b, FirstMarks(r.held, renews)), r, b.made);
    hide NoteAll, FirstMarks, VerdictMarks, WritesFrom;
    NoteFew(Book(Done(b), ExchangeOf(r, b.made), r.parsed != Unseen, b.made + |Chunks(r)|), freed);
  }

  lemma {:induction false} RequestsNoted(requests: seq<HttpRequest>)
    requires Begun(requests)
    ensures var b := NoteAll(Blank, AllMarks(requests));
            && b.made == Made(requests) && Done(b) == ExchangesOf(requests) && Ready(b, Lingers(requests))
            && (requests != [] ==> (Last(requests).freed <==> Untouched(b.open)))
  {
    if requests != [] {
      RequestsNoted(Init(requests));
      var b, renews := NoteAll(Blank, AllMarks(Init(requests))), Lingers(Init(requests));
      NoteConcat(Blank, AllMarks(Init(requests)), RequestMarks(Last(requests), renews));
      RequestNoted(b, Last(requests), renews);
    }
  }

  /**
   Requests, one after another, on a kept-alive socket, with anything that does not close
   the client socket in between: the exchanges are the requests, each with its own verdict,
   and the real connections got exactly the writes of the forwarded ones, in order.
   */
  lemma {:induction false} RequestsStayApart(original: Target, events: seq<Event>, requests: seq<HttpRequest>)
    requires requests != [] && Begun(requests)
    requires DisciplinedRun(Start(original), events) && MarksIn(Start(original), events) == AllMarks(requests)
    requires !Run(Start(original), events).client.closed
    ensures var m := Run(Start(original), events);
            && (if Last(requests).freed then m.log.past else Exchanges(m)) == ExchangesOf(requests)
            && Payload(m.log.sent) == AllOnWire(ExchangesOf(requests))
  {
    RunIsBook(original, events);
    RequestsNoted(requests);
    ExchangeIsolation(original, events);
    AllOnWireSnoc(Run(Start(original), events).log.past, Run(Start(original), events).log.open);
  }
}
