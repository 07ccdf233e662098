/**
 The rewrite of an outgoing HTTP message: its header block is replaced by one that
 carries the request's headers, unless the two already agree letter by letter.
 */
module HeaderRewrite {
  import opened Prelude
  import opened Text
  import opened HeaderLists
  import SocketMachine

  /** A request's headers, as recorded and as the Fetch Standard keeps them. */
  datatype Request = Request(raw: HeaderList, list: HeaderList)

  // ---------------------------------------------------------------------
  // The message
  // ---------------------------------------------------------------------

  /** The first empty part: the end of the header block; -1 if there is none. */
  function HeadersEnd(parts: seq<string>): (end: int)
    ensures -1 <= end < |parts|
    ensures end >= 0 ==> parts[end] == "" && forall i :: 0 <= i < end ==> parts[i] != ""
    ensures end == -1 ==> forall i :: 0 <= i < |parts| ==> parts[i] != ""
  {
    if parts == [] then -1 else
      var end := HeadersEnd(Init(parts));
      if end >= 0 then end else if Last(parts) == "" then |parts| - 1 else -1
  }

  /** The lines of the header block; without an end, all lines after the first but the last. */
  function HeaderLines(parts: seq<string>, end: int): seq<string>
    requires -1 <= end < |parts|
  {
    var stop := if end == -1 then |parts| - 1 else end;
    if stop <= 1 then [] else parts[1..stop]
  }

  /** A line as a name and a value; a line without the separator loses its last or first character. */
  function RawTuple(line: string): Header {
    match IndexOf(line, COLON)
    case Some(i) => Header(line[..i], line[i + 2..])
    case None => if line == "" then Header("", "") else Header(Init(line), line[1..])
  }

  function RawTuples(lines: seq<string>): HeaderList {
    seq(|lines|, i requires 0 <= i < |lines| => RawTuple(lines[i]))
  }

  function FlatSplit(lines: seq<string>): seq<string> {
    if lines == [] then [] else FlatSplit(Init(lines)) + Split(Last(lines), COLON)
  }

  /** Names and values in turn, whatever they came from. */
  function Paired(flat: seq<string>): HeaderList {
    if flat == [] then [] else if |flat| == 1 then [Header(flat[0], "undefined")]
    else [Header(flat[0], flat[1])] + Paired(flat[2..])
  }

  /** The request's headers laid over the message's, each name once; and the names visited. */
  function Overlay(l: HeaderList, raw: HeaderList, q: HeaderList): (HeaderList, set<string>) {
    if raw == [] then (l, {}) else
      var (l1, visited) := Overlay(l, Init(raw), q);
      var name := Last(raw).name;
      if Lower(name) in visited then (l1, visited)
      else if Get(q, name).None? then (l1, visited + {Lower(name)})
      else (ListSet(l1, name, Get(q, name).value), visited + {Lower(name)})
  }

  function Line(h: Header): string {
    h.name + Mark(COLON) + h.value
  }

  function Lines(l: HeaderList): seq<string> {
    seq(|l|, i requires 0 <= i < |l| => Line(l[i]))
  }

  /** The block takes the place of the lines of the old one; without an end, it goes in front of them. */
  function SplicedParts(parts: seq<string>, end: int, block: string): seq<string>
    requires -1 <= end < |parts| && parts != []
  {
    var stop := if end <= 1 then 1 else end;
    parts[..1] + [block] + parts[stop..]
  }

  /** What the header lines are read as. */
  function ReadAs(lines: seq<string>): HeaderList {
    Paired(FlatSplit(lines))
  }

  function NewHeaders(lines: seq<string>, q: Request): HeaderList {
    Overlay(FromInit(ReadAs(lines)), q.raw, q.list).0
  }

  function LinesOf(parts: seq<string>): seq<string>
    requires parts != []
  {
    HeaderLines(parts, HeadersEnd(parts))
  }

  /** The message's header lines are, letter by letter, the request's raw headers. */
  predicate Agrees(parts: seq<string>, q: Request)
    requires parts != []
  {
    RawTuples(LinesOf(parts)) == q.raw
  }

  function NewEntries(parts: seq<string>, q: Request): HeaderList
    requires parts != []
  {
    Entries(NewHeaders(LinesOf(parts), q))
  }

  function NewBlock(parts: seq<string>, q: Request): string
    requires parts != []
  {
    Join(Lines(NewEntries(parts, q)), CRLF)
  }

  function Rewritten(parts: seq<string>, q: Request): string
    requires parts != []
  {
    Join(SplicedParts(parts, HeadersEnd(parts), NewBlock(parts, q)), CRLF)
  }

  /** None: the platform does not take a header that the lines are read as, and the rewrite throws. */
  function RewriteMessage(message: string, q: Request): Option<string> {
    var parts := Split(message, CRLF);
    if Agrees(parts, q) then Some(message)
    else if !AllTaken(ReadAs(LinesOf(parts))) then None
    else Some(Rewritten(parts, q))
  }

  // ---------------------------------------------------------------------
  // What the new headers are
  // ---------------------------------------------------------------------

  lemma {:induction false} VisitedNames(l: HeaderList, raw: HeaderList, q: HeaderList, name: string)
    ensures Lower(name) in Overlay(l, raw, q).1 <==> Has(raw, name)
  {
    if raw != [] {
      VisitedNames(l, Init(raw), q, name);
      HasSnoc(raw, name);
    }
  }

  /**
   Every header the request names and has carries the request's merged value, and
   every other header of the message keeps its values.
   */
  lemma {:induction false} OverlayValues(l: HeaderList, raw: HeaderList, q: HeaderList, name: string)
    ensures Values(Overlay(l, raw, q).0, name) ==
            if Has(raw, name) && Get(q, name).Some? then [Get(q, name).value] else Values(l, name)
  {
    if raw != [] {
      var n := Last(raw).name;
      OverlayValues(l, Init(raw), q, name);
      VisitedNames(l, Init(raw), q, n);
      HasSnoc(raw, name);
      if SameName(n, name) { HasOfSameName(Init(raw), n, name); }
      ValuesOfSameName(q, n, name);
      if Get(q, n).Some? {
        ValuesAfterSet(Overlay(l, Init(raw), q).0, n, Get(q, n).value, name);
      }
    }
  }

  /** A header line whose separator occurs once. */
  predicate OneColon(line: string) {
    var i := IndexOf(line, COLON);
    i.Some? && Free(line[i.value + 2..], COLON)
  }

  lemma {:induction false} PairedOfPairs(lines: seq<string>)
    requires forall i :: 0 <= i < |lines| ==> OneColon(lines[i])
    ensures Paired(FlatSplit(lines)) == RawTuples(lines)
    ensures |FlatSplit(lines)| == 2 * |lines|
  {
    if lines != [] {
      var line := Last(lines);
      PairedOfPairs(Init(lines));
      var i := IndexOf(line, COLON).value;
      assert Split(line, COLON) == [line[..i], line[i + 2..]];
      PairedSnoc(FlatSplit(Init(lines)), line[..i], line[i + 2..]);
      assert RawTuples(lines) == RawTuples(Init(lines)) + [RawTuple(line)];
    }
  }

  lemma {:induction false} PairedSnoc(flat: seq<string>, name: string, value: string)
    requires |flat| % 2 == 0
    ensures Paired(flat + [name, value]) == Paired(flat) + [Header(name, value)]
  {
    if flat != [] {
      assert (flat + [name, value])[2..] == flat[2..] + [name, value];
      PairedSnoc(flat[2..], name, value);
    }
  }

  lemma {:induction false} PairedConcat(a: seq<string>, b: seq<string>)
    requires |a| % 2 == 0
    ensures Paired(a + b) == Paired(a) + Paired(b)
  {
    if a == [] {
      assert a + b == b;
    } else {
      assert (a + b)[2..] == a[2..] + b;
      PairedConcat(a[2..], b);
    }
  }

  lemma {:induction false} FlatConcat(a: seq<string>, b: seq<string>)
    ensures FlatSplit(a + b) == FlatSplit(a) + FlatSplit(b)
  {
    if b == [] {
      assert a + b == a;
    } else {
      assert Init(a + b) == a + Init(b) && Last(a + b) == Last(b);
      FlatConcat(a, Init(b));
      hide Split;
      var x, y, z := FlatSplit(a), FlatSplit(Init(b)), Split(Last(b), COLON);
      assert (x + y) + z == x + (y + z);
    }
  }

  /** A line whose separator does not occur once, followed by anything, is read as another header. */
  lemma {:induction false} LineMisread(line: string, more: seq<string>)
    requires line != "" && !OneColon(line)
    ensures var read := Paired(Split(line, COLON) + more); read != [] && read[0] != RawTuple(line)
  {
    var flat := Split(line, COLON) + more;
    match IndexOf(line, COLON)
    case None => assert flat[0] == line;
    case Some(i) =>
      var value := line[i + 2..];
      assert Split(line, COLON) == [line[..i]] + Split(value, COLON);
      assert flat[1] == Split(value, COLON)[0];
      assert |Split(value, COLON)[0]| < |value|;
  }

  lemma {:induction false} FlatAround(before: seq<string>, line: string, rest: seq<string>)
    ensures FlatSplit(before + [line] + rest) == FlatSplit(before) + (Split(line, COLON) + FlatSplit(rest))
  {
    hide Split;
    FlatConcat(before + [line], rest);
    FlatConcat(before, [line]);
    assert Init([line]) == [] && FlatSplit([line]) == [] + Split(line, COLON);
    var x, y, z := FlatSplit(before), Split(line, COLON), FlatSplit(rest);
    assert (x + y) + z == x + (y + z);
  }

  /** The lines before a misread one are read right. */
  lemma {:induction false} ReadAfter(before: seq<string>, line: string, rest: seq<string>)
    requires forall i :: 0 <= i < |before| ==> OneColon(before[i])
    ensures ReadAs(before + [line] + rest) == RawTuples(before) + Paired(Split(line, COLON) + FlatSplit(rest))
  {
    var lines, more := before + [line] + rest, Split(line, COLON) + FlatSplit(rest);
    assert ReadAs(lines) == Paired(FlatSplit(lines));
    hide *;
    PairedOfPairs(before);
    FlatAround(before, line, rest);
    PairedConcat(FlatSplit(before), more);
  }

  lemma {:induction false} MisreadAt(lines: seq<string>, j: nat)
    requires j < |lines| && lines[j] != "" && !OneColon(lines[j]) && forall i :: 0 <= i < j ==> OneColon(lines[i])
    ensures ReadAs(lines) != RawTuples(lines)
  {
    var before, line, rest := lines[..j], lines[j], lines[j + 1..];
    assert lines == before + [line] + rest;
    ReadAfter(before, line, rest);
    LineMisread(line, FlatSplit(rest));
    hide ReadAs, Paired, FlatSplit, Split, OneColon, RawTuple;
    var read := Paired(Split(line, COLON) + FlatSplit(rest));
    assert |RawTuples(before)| == j && RawTuples(lines)[j] == RawTuple(line);
    assert (RawTuples(before) + read)[j] == read[0];
  }

  /** The header lines are read as the headers they say exactly when each has one separator. */
  lemma {:induction false} ReadRightIff(lines: seq<string>)
    requires forall i :: 0 <= i < |lines| ==> lines[i] != ""
    ensures ReadAs(lines) == RawTuples(lines) <==> forall i :: 0 <= i < |lines| ==> OneColon(lines[i])
  {
    var j := 0;
    while j < |lines| && OneColon(lines[j])
      invariant 0 <= j <= |lines| && forall i :: 0 <= i < j ==> OneColon(lines[i])
    {
      j := j + 1;
    }
    if j == |lines| { PairedOfPairs(lines); } else { MisreadAt(lines, j); }
  }

  /** A message whose lines have one separator each, and say headers the platform takes, is never refused. */
  lemma {:induction false} WellFormedIsTaken(message: string, q: Request)
    requires var lines := LinesOf(Split(message, CRLF));
             AllTaken(RawTuples(lines)) && forall i :: 0 <= i < |lines| ==> OneColon(lines[i])
    ensures RewriteMessage(message, q).Some?
  {
    PairedOfPairs(LinesOf(Split(message, CRLF)));
  }

  /** Of a value with a separator the second half is read as a name; the platform may not take it. */
  lemma {:induction false} ShiftedIsRefused(start: string, name: string, value: string, rest: string, q: Request)
    requires start != "" && Free(start, CRLF) && Free(Line(Header(name, value + Mark(COLON) + rest)), CRLF)
    requires Free(name, COLON) && Free(value, COLON) && Free(rest, COLON) && !Token(rest)
    requires q.raw != [Header(name, value + Mark(COLON) + rest)]
    ensures RewriteMessage(Join([start, Line(Header(name, value + Mark(COLON) + rest)), "", ""], CRLF), q) == None
  {
    var line := Line(Header(name, value + Mark(COLON) + rest));
    var parts := [start, line] + ["", ""];
    ShiftedLine(name, value, rest);
    LineIsRead(Header(name, value + Mark(COLON) + rest));
    assert line != "";
    hide Line, ReadAs;
    SplitOfJoin(parts, CRLF);
    EndAfterLines([start, line], ["", ""]);
    assert parts == [start, line, "", ""] && LinesOf(parts) == [line];
    assert ReadAs([line])[1].name == rest;
    assert RawTuples([line]) == [RawTuple(line)];
  }

  lemma {:induction false} LineIsRead(h: Header)
    requires Free(h.name, COLON)
    ensures RawTuple(Line(h)) == h
  {
    FoundAfterPart(h.name, h.value, COLON);
  }

  lemma {:induction false} ThreeFields(name: string, value: string, rest: string)
    requires Free(name, COLON) && Free(value, COLON) && Free(rest, COLON)
    ensures Split(Line(Header(name, value + Mark(COLON) + rest)), COLON) == [name, value, rest]
  {
    var fields, line := [name, value, rest], Line(Header(name, value + Mark(COLON) + rest));
    SplitOfJoin(fields, COLON);
    assert fields[1..] == [value, rest] && [value, rest][1..] == [rest];
    assert Join([value, rest], COLON) == value + Mark(COLON) + Join([rest], COLON);
    assert Join(fields, COLON) == line;
  }

  lemma {:induction false} ShiftedLine(name: string, value: string, rest: string)
    requires Free(name, COLON) && Free(value, COLON) && Free(rest, COLON)
    ensures var line := Line(Header(name, value + Mark(COLON) + rest));
            ReadAs([line]) == [Header(name, value), Header(rest, "undefined")]
  {
    var fields, line := [name, value, rest], Line(Header(name, value + Mark(COLON) + rest));
    ThreeFields(name, value, rest);
    hide Split, Join, Line;
    assert Init([line]) == [] && FlatSplit([line]) == [] + Split(line, COLON);
    assert FlatSplit([line]) == fields && fields[2..] == [rest];
    assert Paired([rest]) == [Header(rest, "undefined")];
    assert Paired(fields) == [Header(name, value)] + Paired(fields[2..]);
  }

  /** The request's headers over the ones the message's header lines are read as. */
  lemma NewHeaderValues(lines: seq<string>, q: Request, name: string)
    ensures Values(NewHeaders(lines, q), name) ==
            if Has(q.raw, name) && Get(q.list, name).Some? then [Get(q.list, name).value]
            else Values(ReadAs(lines), name)
  {
    ValuesFromInit(ReadAs(lines), name);
    OverlayValues(FromInit(ReadAs(lines)), q.raw, q.list, name);
  }

  // ---------------------------------------------------------------------
  // Nothing outside the block changes
  // ---------------------------------------------------------------------

  /** The start line, the old header lines if there are any, and what follows them. */
  function Around(parts: seq<string>, block: seq<string>, end: nat): string
    requires 1 <= end < |parts|
  {
    parts[0] + Mark(CRLF) + (if block == [] then "" else Join(block, CRLF) + Mark(CRLF)) + Join(parts[end..], CRLF)
  }

  lemma AroundIsJoin(parts: seq<string>, block: seq<string>, end: nat)
    requires 1 <= end < |parts|
    ensures Around(parts, block, end) == Join([parts[0]] + block + parts[end..], CRLF)
  {
    var head, tail := [parts[0]], parts[end..];
    JoinConcat(head, block + tail, CRLF);
    assert head + block + tail == head + (block + tail);
    if block == [] {
      assert block + tail == tail;
      assert parts[0] + Mark(CRLF) + "" + Join(tail, CRLF) == parts[0] + Mark(CRLF) + Join(tail, CRLF);
    } else {
      JoinConcat(block, tail, CRLF);
      assert parts[0] + Mark(CRLF) + (Join(block, CRLF) + Mark(CRLF) + Join(tail, CRLF)) ==
             parts[0] + Mark(CRLF) + (Join(block, CRLF) + Mark(CRLF)) + Join(tail, CRLF);
    }
  }

  lemma RewrittenAround(parts: seq<string>, q: Request)
    requires parts != [] && HeadersEnd(parts) >= 1
    ensures Rewritten(parts, q) == Around(parts, [NewBlock(parts, q)], HeadersEnd(parts))
  {
    var end := HeadersEnd(parts);
    AroundIsJoin(parts, [NewBlock(parts, q)], end);
    assert parts[..1] == [parts[0]];
  }

  /**
   Of a message with a blank line the rewrite keeps the start line, and everything from the
   blank line on; in between is the new block, or what was there if that agrees already.
   */
  lemma {:induction false} OnlyTheBlockChanges(message: string, q: Request)
    requires HeadersEnd(Split(message, CRLF)) >= 1
    ensures var parts := Split(message, CRLF);
            var end := HeadersEnd(parts);
            && message == Around(parts, parts[1..end], end)
            && RewriteMessage(message, q) ==
                 (if RawTuples(parts[1..end]) == q.raw then Some(message)
                  else if !AllTaken(ReadAs(parts[1..end])) then None
                  else Some(Around(parts, [NewBlock(parts, q)], end)))
  {
    var parts := Split(message, CRLF);
    var end := HeadersEnd(parts);
    JoinOfSplit(message, CRLF);
    assert LinesOf(parts) == parts[1..end];
    hide Split, Join, NewBlock, RawTuples, ReadAs, AllTaken, Rewritten, Around;
    AroundIsJoin(parts, parts[1..end], end);
    RewrittenAround(parts, q);
    assert [parts[0]] + parts[1..end] + parts[end..] == parts;
  }

  /** The new block in front of everything that came after the start line. */
  function InFront(parts: seq<string>, block: string): string
    requires parts != []
  {
    parts[0] + Mark(CRLF) + block + (if |parts| == 1 then "" else Mark(CRLF) + Join(parts[1..], CRLF))
  }

  lemma {:induction false} SplicedInFront(parts: seq<string>, end: int, block: string)
    requires parts != [] && -1 <= end < |parts| && end <= 1
    ensures Join(SplicedParts(parts, end, block), CRLF) == InFront(parts, block)
  {
    assert SplicedParts(parts, end, block) == [parts[0], block] + parts[1..];
    if |parts| == 1 {
      assert [parts[0], block] + parts[1..] == [parts[0], block] && [parts[0], block][1..] == [block];
    } else {
      JoinOfThree(parts[0], block, parts[1..], CRLF);
      hide Join;
      var a, m, rest := parts[0], Mark(CRLF), Join(parts[1..], CRLF);
      assert a + m + (block + m + rest) == a + m + block + (m + rest);
    }
  }

  /** Of a message with header lines, and a blank line after them, the rewrite is shorter. */
  lemma {:induction false} LinesAreReplaced(parts: seq<string>, end: nat, block: string)
    requires 1 < end < |parts|
    ensures |Around(parts, [block], end)| < |InFront(parts, block)|
  {
    assert parts[1..] == parts[1..end] + parts[end..];
    JoinConcat(parts[1..end], parts[end..], CRLF);
    assert Join([block], CRLF) == block;
    hide Join;
    var tail := Join(parts[end..], CRLF);
    assert |Around(parts, [block], end)| == |parts[0]| + 2 + (|block| + 2) + |tail|;
    assert |InFront(parts, block)| == |parts[0]| + 2 + |block| + (2 + (|Join(parts[1..end], CRLF)| + 2 + |tail|));
  }

  /** Without a blank line in the chunk, or with one at its very start, the old header lines stay behind the new ones. */
  lemma {:induction false} WithoutEndLinesStay(message: string, q: Request)
    requires var parts := Split(message, CRLF);
             HeadersEnd(parts) <= 0 && !Agrees(parts, q) && AllTaken(ReadAs(LinesOf(parts)))
    ensures var parts := Split(message, CRLF); RewriteMessage(message, q) == Some(InFront(parts, NewBlock(parts, q)))
  {
    var parts := Split(message, CRLF);
    SplicedInFront(parts, HeadersEnd(parts), NewBlock(parts, q));
  }

  /** Of a chunk without a blank line the last line is not read as a header: whatever it is, the new block is the same. */
  lemma {:induction false} LastLineIsLeftOut(parts: seq<string>, other: string, q: Request)
    requires |parts| > 1 && HeadersEnd(parts) == -1 && other != ""
    ensures LinesOf(parts) == parts[1..|parts| - 1]
    ensures NewBlock(Init(parts) + [other], q) == NewBlock(parts, q)
  {
    var parts' := Init(parts) + [other];
    forall i | 0 <= i < |parts'| ensures parts'[i] != "" {
      if i < |parts| - 1 { assert parts'[i] == parts[i]; }
    }
    assert HeadersEnd(parts') == -1;
    assert parts'[1..|parts'| - 1] == parts[1..|parts| - 1];
  }

  /**
   A rewrite deletes nothing of a chunk, and only puts the new block in front, exactly when
   the first blank line comes before any header line, or not at all.
   */
  lemma {:induction false} OldLinesStayIff(message: string, q: Request)
    requires var parts := Split(message, CRLF); !Agrees(parts, q) && AllTaken(ReadAs(LinesOf(parts)))
    ensures var parts := Split(message, CRLF);
            RewriteMessage(message, q) == Some(InFront(parts, NewBlock(parts, q))) <==> HeadersEnd(parts) <= 1
  {
    var parts := Split(message, CRLF);
    var end, block := HeadersEnd(parts), NewBlock(parts, q);
    assert RewriteMessage(message, q) == Some(Rewritten(parts, q));
    if end <= 1 {
      SplicedInFront(parts, end, block);
    } else {
      RewrittenAround(parts, q);
      hide Split, NewBlock, Join, Rewritten, RewriteMessage, Around, InFront;
      LinesAreReplaced(parts, end, block);
    }
  }

  // ---------------------------------------------------------------------
  // Reading the rewritten message
  // ---------------------------------------------------------------------

  predicate CleanName(name: string) {
    Free(name, COLON) && Free(name, CRLF)
  }

  predicate Clean(l: HeaderList) {
    forall i :: 0 <= i < |l| ==> CleanName(l[i].name) && Free(l[i].value, CRLF)
  }

  /** A request's names and values fit on a line. */
  predicate CleanRequest(q: Request) {
    && (forall i :: 0 <= i < |q.raw| ==> CleanName(q.raw[i].name))
    && (forall i :: 0 <= i < |q.list| ==> Free(q.list[i].value, CRLF))
  }

  lemma FreeConcat(a: string, mid: string, b: string)
    requires Free(a, CRLF) && Free(b, CRLF) && |mid| == 2
    requires mid[0] !in Mark(CRLF) && mid[1] !in Mark(CRLF)
    ensures Free(a + mid + b, CRLF)
  {
    var s := a + mid + b;
    forall i | 0 <= i < |s| ensures !At(s, i, CRLF) {
      if i < |a| - 1 { assert !At(a, i, CRLF); }
      if i >= |a| + 2 { assert !At(b, i - |a| - 2, CRLF); }
    }
  }

  lemma {:induction false} CombinedIsFree(values: seq<string>)
    requires forall i :: 0 <= i < |values| ==> Free(values[i], CRLF)
    ensures Free(Combined(values), CRLF)
  {
    if |values| > 1 {
      CombinedIsFree(values[1..]);
      FreeConcat(values[0], ", ", Combined(values[1..]));
    }
  }

  lemma {:induction false} ValuesAreFree(l: HeaderList, name: string)
    requires forall i :: 0 <= i < |l| ==> Free(l[i].value, CRLF)
    ensures forall i :: 0 <= i < |Values(l, name)| ==> Free(Values(l, name)[i], CRLF)
  {
    if l != [] { ValuesAreFree(l[1..], name); }
  }

  lemma LowerIsClean(name: string)
    requires CleanName(name)
    ensures CleanName(Lower(name))
  {
    forall i | 0 <= i < |name| ensures !At(Lower(name), i, COLON) && !At(Lower(name), i, CRLF) {
      assert !At(name, i, COLON) && !At(name, i, CRLF);
    }
  }

  lemma {:induction false} WithoutIsClean(l: HeaderList, name: string)
    requires Clean(l)
    ensures Clean(Without(l, name))
  {
    if l != [] { WithoutIsClean(l[1..], name); }
  }

  lemma {:induction false} SetIsClean(l: HeaderList, name: string, value: string)
    requires Clean(l) && CleanName(name) && Free(value, CRLF)
    ensures Clean(ListSet(l, name, value)) && Clean(SetFirst(l, name, value))
  {
    if l != [] {
      SetIsClean(l[1..], name, value);
      WithoutIsClean(l[1..], name);
    }
  }

  lemma {:induction false} OverlayIsClean(l: HeaderList, raw: HeaderList, q: HeaderList)
    requires Clean(l) && CleanRequest(Request(raw, q))
    ensures Clean(Overlay(l, raw, q).0)
  {
    if raw != [] {
      OverlayIsClean(l, Init(raw), q);
      var name := Last(raw).name;
      ValuesAreFree(q, name);
      CombinedIsFree(Values(q, name));
      if Get(q, name).Some? { SetIsClean(Overlay(l, Init(raw), q).0, name, Get(q, name).value); }
    }
  }

  lemma {:induction false} NameInListIsClean(l: HeaderList, name: string)
    requires Clean(l) && CleanName(name)
    ensures CleanName(NameInList(l, name))
  {
    if l != [] { NameInListIsClean(l[1..], name); }
  }

  lemma {:induction false} FromInitIsClean(init: HeaderList)
    requires Clean(init)
    ensures Clean(FromInit(init))
  {
    if init != [] {
      FromInitIsClean(Init(init));
      NameInListIsClean(FromInit(Init(init)), Last(init).name);
    }
  }

  lemma {:induction false} FlatIsFree(lines: seq<string>)
    requires AllFree(lines, CRLF)
    ensures AllFree(FlatSplit(lines), CRLF) && AllFree(FlatSplit(lines), COLON)
  {
    if lines != [] {
      var line := Last(lines);
      FlatIsFree(Init(lines));
      SplitKeepsFree(line, COLON, CRLF);
      forall k | 0 <= k < |Split(line, COLON)| ensures Free(Split(line, COLON)[k], COLON) { SplitIsFree(line, COLON, k); }
    }
  }

  lemma {:induction false} PairedIsClean(flat: seq<string>)
    requires AllFree(flat, CRLF) && AllFree(flat, COLON)
    ensures Clean(Paired(flat))
  {
    if |flat| > 1 {
      AllFreeSlice(flat, 2, |flat|, CRLF);
      AllFreeSlice(flat, 2, |flat|, COLON);
      assert flat[2..|flat|] == flat[2..];
      PairedIsClean(flat[2..]);
    }
  }

  lemma NewHeadersAreClean(lines: seq<string>, q: Request)
    requires AllFree(lines, CRLF) && CleanRequest(q)
    ensures Clean(NewHeaders(lines, q))
  {
    FlatIsFree(lines);
    PairedIsClean(FlatSplit(lines));
    FromInitIsClean(ReadAs(lines));
    OverlayIsClean(FromInit(ReadAs(lines)), q.raw, q.list);
  }

  lemma {:induction false} EntriesForAreClean(l: HeaderList, names: seq<string>)
    requires Clean(l) && forall i :: 0 <= i < |names| ==> CleanName(names[i])
    ensures Clean(EntriesFor(l, names))
  {
    if names != [] {
      EntriesForAreClean(l, names[1..]);
      ValuesAreFree(l, names[0]);
      CombinedIsFree(Values(l, names[0]));
    }
  }

  lemma EntriesAreClean(l: HeaderList)
    requires Clean(l)
    ensures Clean(Entries(l))
  {
    var names := SortedNames(l);
    forall i | 0 <= i < |names| ensures CleanName(names[i]) {
      NamesAreLower(l, names[i]);
      var j :| 0 <= j < |l| && names[i] == Lower(l[j].name);
      LowerIsClean(l[j].name);
    }
    EntriesForAreClean(l, names);
  }

  /** A clean header, written as a line, reads as itself. */
  lemma LineReadsBack(h: Header)
    requires CleanName(h.name) && Free(h.value, CRLF)
    ensures RawTuple(Line(h)) == h && Free(Line(h), CRLF) && Line(h) != ""
  {
    LineIsRead(h);
    FreeConcat(h.name, Mark(COLON), h.value);
  }

  lemma LinesReadBack(l: HeaderList)
    requires Clean(l)
    ensures RawTuples(Lines(l)) == l
    ensures forall i :: 0 <= i < |l| ==> Free(Lines(l)[i], CRLF) && Lines(l)[i] != ""
  {
    forall i | 0 <= i < |l| ensures RawTuples(Lines(l))[i] == l[i] && Free(Lines(l)[i], CRLF) && Lines(l)[i] != "" {
      LineReadsBack(l[i]);
    }
  }

  lemma {:induction false} EndAfterLines(a: seq<string>, b: seq<string>)
    requires b != [] && b[0] == "" && forall i :: 0 <= i < |a| ==> a[i] != ""
    ensures HeadersEnd(a + b) == |a|
  {
    assert (a + b)[|a|] == "";
  }

  /** The message has a blank line, and the request's headers fit on lines. */
  predicate Readable(parts: seq<string>, q: Request)
    requires parts != []
  {
    HeadersEnd(parts) >= 1 && CleanRequest(q) && AllFree(parts, CRLF)
  }

  lemma NewEntriesAreClean(parts: seq<string>, q: Request)
    requires parts != [] && Readable(parts, q)
    ensures Clean(NewEntries(parts, q))
  {
    AllFreeSlice(parts, 1, HeadersEnd(parts), CRLF);
    NewHeadersAreClean(LinesOf(parts), q);
    EntriesAreClean(NewHeaders(LinesOf(parts), q));
  }

  /** There is a header to write: the message has a header line, or the request a header it names. */
  predicate Writes(parts: seq<string>, q: Request)
    requires parts != []
  {
    LinesOf(parts) != [] || !HasNone(q.raw, q.list)
  }

  lemma {:induction false} EntriesIff(parts: seq<string>, q: Request)
    requires parts != []
    ensures NewEntries(parts, q) != [] <==> Writes(parts, q)
  {
    var l := NewHeaders(LinesOf(parts), q);
    NoHeadersIff(LinesOf(parts), q);
    if l != [] { EntryValues(l, l[0].name); }
  }

  /** Splitting the rewritten message gives the start line, the new header lines, and the old rest. */
  lemma RewrittenParts(parts: seq<string>, q: Request)
    requires parts != [] && Readable(parts, q) && NewEntries(parts, q) != []
    ensures Split(Rewritten(parts, q), CRLF) == [parts[0]] + Lines(NewEntries(parts, q)) + parts[HeadersEnd(parts)..]
  {
    var entries := NewEntries(parts, q);
    NewEntriesAreClean(parts, q);
    LinesReadBack(entries);
    hide Split, Join, NewEntries, Lines, Clean;
    SplitOfSpliced(parts, HeadersEnd(parts), Lines(entries));
  }

  lemma SplitOfSpliced(parts: seq<string>, end: int, lines: seq<string>)
    requires 1 <= end < |parts| && lines != [] && AllFree(parts, CRLF) && AllFree(lines, CRLF)
    ensures Split(Join(SplicedParts(parts, end, Join(lines, CRLF)), CRLF), CRLF) == [parts[0]] + lines + parts[end..]
  {
    hide Split, Join, AllFree;
    RewriteIsJoin(parts, end, lines);
    AllFreeSlice(parts, 0, 1, CRLF);
    AllFreeSlice(parts, end, |parts|, CRLF);
    assert parts[0..1] == [parts[0]] && parts[end..|parts|] == parts[end..];
    AllFreeConcat([parts[0]], lines, CRLF);
    AllFreeConcat([parts[0]] + lines, parts[end..], CRLF);
    SplitOfJoin([parts[0]] + lines + parts[end..], CRLF);
  }

  /** The rewritten message has the new entries as its header lines, and nothing else changed. */
  lemma {:induction false} RewrittenMessageReads(parts: seq<string>, q: Request)
    requires parts != [] && Readable(parts, q) && Writes(parts, q)
    ensures var parts' := Split(Rewritten(parts, q), CRLF);
            && RawTuples(LinesOf(parts')) == NewEntries(parts, q)
            && parts'[0] == parts[0]
            && HeadersEnd(parts') > 0 && parts'[HeadersEnd(parts')..] == parts[HeadersEnd(parts)..]
  {
    var entries := NewEntries(parts, q);
    var a, b := [parts[0]] + Lines(entries), parts[HeadersEnd(parts)..];
    EntriesIff(parts, q);
    RewrittenParts(parts, q);
    NewEntriesAreClean(parts, q);
    LinesReadBack(entries);
    hide Split, Rewritten, NewEntries, Lines, Entries;
    EndAfterLines(a, b);
    assert (a + b)[1..|a|] == Lines(entries) && (a + b)[|a|..] == b;
  }

  /**
   Read again, the rewritten message says of every header: the request's merged value if
   the request names and has it, else what the message was read as, merged into one line
   too, but for "Set-Cookie".
   */
  lemma {:induction false} RewrittenHeaderValues(message: string, q: Request, name: string)
    requires var parts := Split(message, CRLF);
             HeadersEnd(parts) >= 1 && CleanRequest(q) && !Agrees(parts, q) && Writes(parts, q)
    ensures RewriteMessage(message, q).None? <==> !AllTaken(ReadAs(LinesOf(Split(message, CRLF))))
    ensures RewriteMessage(message, q).Some? ==>
            var before := Values(ReadAs(LinesOf(Split(message, CRLF))), name);
            var after := Values(RawTuples(LinesOf(Split(RewriteMessage(message, q).value, CRLF))), name);
            after == if Has(q.raw, name) && Get(q.list, name).Some? then [Get(q.list, name).value]
                     else if before == [] || Lower(name) == "set-cookie" then before
                     else [Combined(before)]
  {
    var parts := Split(message, CRLF);
    forall k | 0 <= k < |parts| ensures Free(parts[k], CRLF) { SplitIsFree(message, CRLF, k); }
    hide Split, Rewritten, NewEntries;
    assert Readable(parts, q);
    RewrittenMessageReads(parts, q);
    EntriesOfNewHeaders(parts, q, name);
  }

  lemma {:induction false} EntriesOfNewHeaders(parts: seq<string>, q: Request, name: string)
    requires parts != []
    ensures var before := Values(ReadAs(LinesOf(parts)), name);
            Values(NewEntries(parts, q), name) ==
              if Has(q.raw, name) && Get(q.list, name).Some? then [Get(q.list, name).value]
              else if before == [] || Lower(name) == "set-cookie" then before
              else [Combined(before)]
  {
    NewHeaderValues(LinesOf(parts), q, name);
    EntryValues(NewHeaders(LinesOf(parts), q), name);
  }

  lemma RewriteIsJoin(parts: seq<string>, end: int, lines: seq<string>)
    requires 1 <= end < |parts| && lines != []
    ensures Join(SplicedParts(parts, end, Join(lines, CRLF)), CRLF) == Join([parts[0]] + lines + parts[end..], CRLF)
  {
    var head, block, tail := [parts[0]], Join(lines, CRLF), parts[end..];
    assert SplicedParts(parts, end, block) == head + ([block] + tail);
    JoinConcat(head, [block] + tail, CRLF);
    JoinConcat([block], tail, CRLF);
    assert head + lines + tail == head + (lines + tail);
    JoinConcat(head, lines + tail, CRLF);
    JoinConcat(lines, tail, CRLF);
  }

  // ---------------------------------------------------------------------
  // A message left with no headers
  // ---------------------------------------------------------------------

  /** The request has none of the headers it names: the platform withholds them. */
  predicate HasNone(raw: HeaderList, list: HeaderList) {
    forall i :: 0 <= i < |raw| ==> Get(list, raw[i].name).None?
  }

  lemma {:induction false} OverlayOfNone(raw: HeaderList, list: HeaderList)
    requires HasNone(raw, list)
    ensures Overlay([], raw, list).0 == []
  {
    if raw != [] {
      assert HasNone(Init(raw), list);
      OverlayOfNone(Init(raw), list);
      assert Get(list, Last(raw).name).None?;
    }
  }

  lemma FromInitIsEmpty(l: HeaderList)
    ensures FromInit(l) == [] <==> l == []
  {
  }

  /** There is no header to write exactly when the message has no header line and the request no header it names. */
  lemma {:induction false} NoHeadersIff(lines: seq<string>, q: Request)
    ensures NewHeaders(lines, q) == [] <==> lines == [] && HasNone(q.raw, q.list)
  {
    var read := ReadAs(lines);
    assert read == [] <==> lines == [];
    FromInitIsEmpty(read);
    if read != [] {
      NewHeaderValues(lines, q, read[0].name);
    } else if HasNone(q.raw, q.list) {
      OverlayOfNone(q.raw, q.list);
    } else {
      var i :| 0 <= i < |q.raw| && Get(q.list, q.raw[i].name).Some?;
      NewHeaderValues(lines, q, q.raw[i].name);
      assert Named(q.raw[i], q.raw[i].name) && Has(q.raw, q.raw[i].name);
    }
  }

  lemma {:induction false} BlockIsEmptyIff(parts: seq<string>, q: Request)
    requires parts != []
    ensures NewBlock(parts, q) == "" <==> NewHeaders(LinesOf(parts), q) == []
  {
    var l := NewHeaders(LinesOf(parts), q);
    if l != [] {
      EntryValues(l, l[0].name);
      var entries := Entries(l);
      assert Values(entries, l[0].name) != [];
      assert Line(entries[0]) != "";
      assert Lines(entries)[0] == Line(entries[0]);
    }
  }

  lemma {:induction false} BlockShows(a: string, block: string, tail: seq<string>)
    requires tail != []
    ensures Join([a, block] + tail, CRLF) == Join([a, ""] + tail, CRLF) ==> block == ""
  {
    JoinOfThree(a, block, tail, CRLF);
    JoinOfThree(a, "", tail, CRLF);
    hide Join;
    var rest := Join(tail, CRLF);
    assert |a + Mark(CRLF) + (block + Mark(CRLF) + rest)| == |a| + |block| + |rest| + 4;
    assert |a + Mark(CRLF) + ("" + Mark(CRLF) + rest)| == |a| + |rest| + 4;
  }

  lemma {:induction false} SplitWithEmptyPart(parts: seq<string>, end: nat)
    requires 1 <= end < |parts| && AllFree(parts, CRLF)
    ensures Split(Join([parts[0], ""] + parts[end..], CRLF), CRLF) == [parts[0], ""] + parts[end..]
  {
    hide Split, Join, AllFree;
    assert AllFree([""], CRLF) by { EmptyIsFree(); }
    AllFreeSlice(parts, 0, 1, CRLF);
    AllFreeSlice(parts, end, |parts|, CRLF);
    assert parts[0..1] == [parts[0]] && parts[end..|parts|] == parts[end..] && [parts[0], ""] == [parts[0]] + [""];
    AllFreeConcat([parts[0]], [""], CRLF);
    AllFreeConcat([parts[0], ""], parts[end..], CRLF);
    SplitOfJoin([parts[0], ""] + parts[end..], CRLF);
  }

  lemma EmptyIsFree()
    ensures AllFree([""], CRLF)
  {
  }

  /** The rewritten message is the old one with an empty part for its header lines exactly when the new block is empty. */
  lemma {:induction false} EmptyPartIff(parts: seq<string>, q: Request)
    requires parts != [] && HeadersEnd(parts) >= 1 && AllFree(parts, CRLF)
    ensures Split(Rewritten(parts, q), CRLF) == [parts[0], ""] + parts[HeadersEnd(parts)..] <==> NewBlock(parts, q) == ""
  {
    var end, block := HeadersEnd(parts), NewBlock(parts, q);
    var rest := parts[end..];
    assert SplicedParts(parts, end, block) == [parts[0], block] + rest;
    assert Rewritten(parts, q) == Join([parts[0], block] + rest, CRLF);
    JoinOfSplit(Rewritten(parts, q), CRLF);
    hide *;
    BlockShows(parts[0], block, rest);
    SplitWithEmptyPart(parts, end);
  }

  /**
   The rewrite gives a message with a blank line a second one, and no header, exactly when it
   had no header line, and the request names headers but has none of them.
   */
  lemma {:induction false} ExtraBlankLineIff(message: string, q: Request)
    requires HeadersEnd(Split(message, CRLF)) >= 1
    ensures var parts := Split(message, CRLF);
            var rewritten := RewriteMessage(message, q);
            rewritten.Some? && Split(rewritten.value, CRLF) == [parts[0], ""] + parts[HeadersEnd(parts)..] <==>
              HeadersEnd(parts) == 1 && q.raw != [] && HasNone(q.raw, q.list)
  {
    var parts := Split(message, CRLF);
    forall k | 0 <= k < |parts| ensures Free(parts[k], CRLF) { SplitIsFree(message, CRLF, k); }
    hide Split, Rewritten, NewBlock, NewHeaders;
    EmptyPartIff(parts, q);
    BlockIsEmptyIff(parts, q);
    NoHeadersIff(LinesOf(parts), q);
    if Agrees(parts, q) {
      assert ([parts[0], ""] + parts[HeadersEnd(parts)..])[1] == "" && |RawTuples(LinesOf(parts))| == |LinesOf(parts)|;
    }
  }

  /** It happens: a message without headers, whose request recorded one the platform withholds. */
  lemma {:induction false} ExtraBlankLine(start: string, withheld: Header)
    requires start != "" && Free(start, CRLF)
    ensures var q := Request([withheld], []);
            var rewritten := RewriteMessage(Join([start, "", ""], CRLF), q);
            rewritten.Some? && Split(rewritten.value, CRLF) == [start, "", "", ""]
  {
    var parts, q := [start, "", ""], Request([withheld], []);
    SplitOfJoin(parts, CRLF);
    EndAfterLines([start], ["", ""]);
    assert parts == [start] + ["", ""];
    ExtraBlankLineIff(Join(parts, CRLF), q);
    assert [parts[0], ""] + parts[1..] == [start, "", "", ""];
  }

  // ---------------------------------------------------------------------
  // The loops
  // ---------------------------------------------------------------------

  method FindHeadersEnd(parts: seq<string>) returns (end: int)
    ensures end == HeadersEnd(parts)
  {
    for i := 0 to |parts|
      invariant HeadersEnd(parts[..i]) == -1
    {
      assert Init(parts[..i + 1]) == parts[..i];
      if parts[i] == "" {
        EndAfterLines(parts[..i], parts[i..]);
        assert parts == parts[..i] + parts[i..];
        return i;
      }
    }
    assert parts[..|parts|] == parts;
    return -1;
  }

  method ReadRawTuples(lines: seq<string>) returns (tuples: HeaderList)
    ensures tuples == RawTuples(lines)
  {
    tuples := [];
    for i := 0 to |lines|
      invariant tuples == RawTuples(lines[..i])
    {
      assert RawTuples(lines[..i + 1]) == RawTuples(lines[..i]) + [RawTuple(lines[i])];
      tuples := tuples + [RawTuple(lines[i])];
    }
    assert lines[..|lines|] == lines;
  }

  method SplitLines(lines: seq<string>) returns (flat: seq<string>)
    ensures flat == FlatSplit(lines)
  {
    flat := [];
    for i := 0 to |lines|
      invariant flat == FlatSplit(lines[..i])
    {
      assert Init(lines[..i + 1]) == lines[..i];
      flat := flat + Split(lines[i], COLON);
    }
    assert lines[..|lines|] == lines;
  }

  lemma {:induction false} PairedOdd(flat: seq<string>, name: string)
    requires |flat| % 2 == 0
    ensures Paired(flat + [name]) == Paired(flat) + [Header(name, "undefined")]
  {
    if flat != [] {
      assert (flat + [name])[2..] == flat[2..] + [name];
      PairedOdd(flat[2..], name);
    }
  }

  /** The next name, with the value after it if there is one, is appended. */
  lemma NextPair(raw: seq<string>, line: nat)
    requires line < |raw| && line % 2 == 0
    ensures var value := if line + 1 < |raw| then raw[line + 1] else "undefined";
            var next := if line + 2 < |raw| then line + 2 else |raw|;
            FromInit(Paired(raw[..next])) == ListAppend(FromInit(Paired(raw[..line])), raw[line], value)
  {
    var before := Paired(raw[..line]);
    if line + 1 < |raw| {
      PairedSnoc(raw[..line], raw[line], raw[line + 1]);
      assert raw[..line + 2] == raw[..line] + [raw[line], raw[line + 1]];
      InitOfSnoc(before, Header(raw[line], raw[line + 1]));
    } else {
      PairedOdd(raw[..line], raw[line]);
      assert raw[..line + 1] == raw[..line] + [raw[line]];
      InitOfSnoc(before, Header(raw[line], "undefined"));
    }
  }

  /** It is the header there in the whole list. */
  lemma {:induction false} PairIsRead(raw: seq<string>, line: nat)
    requires line < |raw| && line % 2 == 0
    ensures var h := Header(raw[line], if line + 1 < |raw| then raw[line + 1] else "undefined");
            h in Paired(raw)
  {
    var rest := raw[line..];
    assert raw == raw[..line] + rest;
    PairedConcat(raw[..line], rest);
    assert Paired(rest)[0] == Header(raw[line], if line + 1 < |raw| then raw[line + 1] else "undefined");
    assert Paired(raw)[|Paired(raw[..line])|] == Paired(rest)[0];
  }

  lemma {:induction false} NextTaken(raw: seq<string>, line: nat)
    requires line < |raw| && line % 2 == 0 && AllTaken(Paired(raw[..line]))
    requires Taken(Header(raw[line], if line + 1 < |raw| then raw[line + 1] else "undefined"))
    ensures AllTaken(Paired(raw[..if line + 2 < |raw| then line + 2 else |raw|]))
  {
    hide Taken;
    if line + 1 < |raw| {
      PairedSnoc(raw[..line], raw[line], raw[line + 1]);
      assert raw[..line + 2] == raw[..line] + [raw[line], raw[line + 1]];
    } else {
      PairedOdd(raw[..line], raw[line]);
      assert raw[..line + 1] == raw[..line] + [raw[line]];
    }
  }

  /** Names at even positions, values at odd ones; None: one is not taken. */
  method ParseRawHeaders(raw: seq<string>) returns (headers: Option<HeaderList>)
    ensures headers == if AllTaken(Paired(raw)) then Some(FromInit(Paired(raw))) else None
  {
    var list := [];
    var line := 0;
    assert FromInit(Paired(raw[..0])) == [] && AllTaken(Paired(raw[..0]));
    while line < |raw|
      invariant 0 <= line && (line < |raw| ==> line % 2 == 0)
      invariant list == FromInit(Paired(raw[..if line < |raw| then line else |raw|]))
      invariant AllTaken(Paired(raw[..if line < |raw| then line else |raw|]))
      decreases |raw| - line
    {
      var h := Header(raw[line], if line + 1 < |raw| then raw[line + 1] else "undefined");
      if !Taken(h) {
        PairIsRead(raw, line);
        return None;
      }
      hide FromInit, Paired, ListAppend, Taken, AllTaken;
      NextPair(raw, line);
      NextTaken(raw, line);
      list := ListAppend(list, h.name, h.value);
      line := line + 2;
    }
    assert raw[..|raw|] == raw;
    return Some(list);
  }

  /** Each name the request recorded is visited once; those it does not have are skipped. */
  method OverlayRequest(message: HeaderList, q: Request) returns (headers: HeaderList)
    ensures headers == Overlay(message, q.raw, q.list).0
  {
    headers := message;
    var visited := {};
    for i := 0 to |q.raw|
      invariant (headers, visited) == Overlay(message, q.raw[..i], q.list)
    {
      assert Init(q.raw[..i + 1]) == q.raw[..i];
      var name := q.raw[i].name;
      if Lower(name) !in visited {
        visited := visited + {Lower(name)};
        var value := Get(q.list, name);
        if value.Some? {
          headers := ListSet(headers, name, value.value);
        }
      }
    }
    assert q.raw[..|q.raw|] == q.raw;
  }

  /** Binary data that comes before the message is left alone. */
  method TransformRequestMessage(message: string, binary: bool, q: Request) returns (rewritten: Option<string>)
    ensures rewritten == if binary then Some(message) else RewriteMessage(message, q)
  {
    if binary {
      return Some(message);
    }
    var parts := Split(message, CRLF);
    var end := FindHeadersEnd(parts);
    var lines := HeaderLines(parts, end);
    var tuples := ReadRawTuples(lines);
    if tuples == q.raw {
      return Some(message);
    }
    var flat := SplitLines(lines);
    var read := ParseRawHeaders(flat);
    if read.None? {
      return None;
    }
    var headers := OverlayRequest(read.value, q);
    var block := Join(Lines(Entries(headers)), CRLF);
    return Some(Join(SplicedParts(parts, end, block), CRLF));
  }

  // ---------------------------------------------------------------------
  // The rewrite as the socket applies it
  // ---------------------------------------------------------------------

  /** Only the first chunk of the first buffered write is a message. */
  function ForFlush(q: Request): SocketMachine.Rewrite {
    (data: SocketMachine.Data) =>
      match RewriteMessage(data[0], q)
      case Some(message) => [message] + data[1..]
      case None => data
  }

  /** Of a passed-through exchange, the first chunk leaves rewritten, and all else as it was written. */
  lemma OnlyTheFirstChunk(x: SocketMachine.Exchange, q: Request, held: nat)
    requires x.verdict == SocketMachine.Passed(Some(ForFlush(q)), held) && held > 0 && x.writes != []
    requires RewriteMessage(x.writes[0].data[0], q).Some?
    ensures var out := SocketMachine.OnWire(x);
            && |out| == |x.writes| && out[1..] == x.writes[1..]
            && out[0].id == x.writes[0].id
            && Some(out[0].data[0]) == RewriteMessage(x.writes[0].data[0], q) && out[0].data[1..] == x.writes[0].data[1..]
  {
    var out := SocketMachine.OnWire(x);
    assert out[1..] == x.writes[1..];
    assert out[0].data == ForFlush(q)(x.writes[0].data);
  }
}
