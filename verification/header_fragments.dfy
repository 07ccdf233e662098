/**
 Assembling headers from the pieces the HTTP parser reports: a name or a value may come
 in any number of pieces, and consecutive pieces of the same kind belong together.
 */
module HeaderFragments {
  import opened Prelude

  datatype Kind = NoneYet | Field | Value

  datatype Callback = MessageBegin | HeaderField(piece: string) | HeaderValue(piece: string) | HeadersComplete

  /** "reported" holds the raw headers of every message so far; None stands for a missing value. */
  datatype Parser = Parser(fields: seq<string>, values: seq<string>, last: Kind, reported: seq<seq<Option<string>>>)

  function Grown(entries: seq<string>, piece: string, sameKind: bool): seq<string> {
    if sameKind && entries != [] then Init(entries) + [Last(entries) + piece] else entries + [piece]
  }

  /** Names and values in turn. */
  function Interleaved(fields: seq<string>, values: seq<string>): seq<Option<string>> {
    if fields == [] then [] else
      var i := |fields| - 1;
      Interleaved(Init(fields), values) + [Some(fields[i]), if i < |values| then Some(values[i]) else None]
  }

  function Feed(p: Parser, c: Callback): Parser {
    match c
    case MessageBegin => p.(fields := [], values := [], last := NoneYet)
    case HeaderField(piece) => p.(fields := Grown(p.fields, piece, p.last == Field), last := Field)
    case HeaderValue(piece) => p.(values := Grown(p.values, piece, p.last == Value), last := Value)
    case HeadersComplete => p.(reported := p.reported + [Interleaved(p.fields, p.values)])
  }

  function FeedAll(p: Parser, cs: seq<Callback>): Parser {
    if cs == [] then p else Feed(FeedAll(p, Init(cs)), Last(cs))
  }

  /** A header, and the pieces its name and its value come in. */
  datatype Pieces = Pieces(name: seq<string>, value: seq<string>)

  function Whole(pieces: seq<string>): string {
    if pieces == [] then "" else Whole(Init(pieces)) + Last(pieces)
  }

  function FieldCallbacks(pieces: seq<string>): seq<Callback> {
    seq(|pieces|, i requires 0 <= i < |pieces| => HeaderField(pieces[i]))
  }

  function ValueCallbacks(pieces: seq<string>): seq<Callback> {
    seq(|pieces|, i requires 0 <= i < |pieces| => HeaderValue(pieces[i]))
  }

  function Callbacks(headers: seq<Pieces>): seq<Callback> {
    if headers == [] then [] else
      Callbacks(Init(headers)) + FieldCallbacks(Last(headers).name) + ValueCallbacks(Last(headers).value)
  }

  function Names(headers: seq<Pieces>): seq<string> {
    seq(|headers|, i requires 0 <= i < |headers| => Whole(headers[i].name))
  }

  function ValuesOf(headers: seq<Pieces>): seq<string> {
    seq(|headers|, i requires 0 <= i < |headers| => Whole(headers[i].value))
  }

  /** Every name and every value is reported, in one piece at least. */
  predicate Reported(headers: seq<Pieces>) {
    forall i :: 0 <= i < |headers| ==> headers[i].name != [] && headers[i].value != []
  }

  lemma {:induction false} FeedConcat(p: Parser, a: seq<Callback>, b: seq<Callback>)
    ensures FeedAll(p, a + b) == FeedAll(FeedAll(p, a), b)
  {
    if b == [] {
      assert a + b == a;
    } else {
      assert Init(a + b) == a + Init(b);
      FeedConcat(p, a, Init(b));
    }
  }

  /** The pieces of one name make one entry. */
  lemma {:induction false} FieldPieces(p: Parser, pieces: seq<string>)
    requires pieces != [] && p.last != Field
    ensures FeedAll(p, FieldCallbacks(pieces)) == p.(fields := p.fields + [Whole(pieces)], last := Field)
  {
    var cs := FieldCallbacks(pieces);
    assert Init(cs) == FieldCallbacks(Init(pieces));
    if |pieces| > 1 {
      FieldPieces(p, Init(pieces));
      InitOfSnoc(p.fields, Whole(Init(pieces)));
    } else {
      assert Init(cs) == [] && Init(pieces) == [];
      assert "" + pieces[0] == pieces[0];
    }
  }

  /** The pieces of one value make one entry. */
  lemma {:induction false} ValuePieces(p: Parser, pieces: seq<string>)
    requires pieces != [] && p.last != Value
    ensures FeedAll(p, ValueCallbacks(pieces)) == p.(values := p.values + [Whole(pieces)], last := Value)
  {
    var cs := ValueCallbacks(pieces);
    assert Init(cs) == ValueCallbacks(Init(pieces));
    if |pieces| > 1 {
      ValuePieces(p, Init(pieces));
      InitOfSnoc(p.values, Whole(Init(pieces)));
    } else {
      assert Init(cs) == [] && Init(pieces) == [];
      assert "" + pieces[0] == pieces[0];
    }
  }

  lemma HeaderByHeader(p: Parser, headers: seq<Pieces>)
    requires headers != []
    ensures FeedAll(p, Callbacks(headers)) ==
            FeedAll(FeedAll(FeedAll(p, Callbacks(Init(headers))), FieldCallbacks(Last(headers).name)),
                    ValueCallbacks(Last(headers).value))
  {
    var before, h := Callbacks(Init(headers)), Last(headers);
    FeedConcat(p, before + FieldCallbacks(h.name), ValueCallbacks(h.value));
    FeedConcat(p, before, FieldCallbacks(h.name));
  }

  /** However they are cut, the names and values are assembled whole, and pair up. */
  lemma {:induction false} PiecesAssemble(p: Parser, headers: seq<Pieces>)
    requires Reported(headers) && p.fields == [] && p.values == [] && p.last == NoneYet
    ensures FeedAll(p, Callbacks(headers)) ==
            p.(fields := Names(headers), values := ValuesOf(headers), last := if headers == [] then NoneYet else Value)
  {
    if headers == [] {
      assert Names(headers) == [] && ValuesOf(headers) == [];
    } else {
      var before, h := Init(headers), Last(headers);
      var p1 := p.(fields := Names(before), values := ValuesOf(before), last := if before == [] then NoneYet else Value);
      PiecesAssemble(p, before);
      HeaderByHeader(p, headers);
      OneMore(headers);
      assert h.name != [] && h.value != [];
      hide *;
      FieldPieces(p1, h.name);
      ValuePieces(p1.(fields := p1.fields + [Whole(h.name)], last := Field), h.value);
    }
  }

  lemma OneMore(headers: seq<Pieces>)
    requires headers != []
    ensures Names(headers) == Names(Init(headers)) + [Whole(Last(headers).name)]
    ensures ValuesOf(headers) == ValuesOf(Init(headers)) + [Whole(Last(headers).value)]
  {
  }

  function Message(headers: seq<Pieces>): seq<Callback> {
    [MessageBegin] + Callbacks(headers) + [HeadersComplete]
  }

  /** One message after another on the same parser. */
  function Stream(messages: seq<seq<Pieces>>): seq<Callback> {
    if messages == [] then [] else Stream(Init(messages)) + Message(Last(messages))
  }

  function Lists(messages: seq<seq<Pieces>>): seq<seq<Option<string>>> {
    seq(|messages|, i requires 0 <= i < |messages| => Interleaved(Names(messages[i]), ValuesOf(messages[i])))
  }

  lemma MessageReported(p: Parser, headers: seq<Pieces>)
    requires Reported(headers)
    ensures FeedAll(p, Message(headers)).reported == p.reported + [Interleaved(Names(headers), ValuesOf(headers))]
  {
    FeedConcat(p, [MessageBegin] + Callbacks(headers), [HeadersComplete]);
    FeedConcat(p, [MessageBegin], Callbacks(headers));
    assert Init([MessageBegin]) == [] && Init([HeadersComplete]) == [];
    var p0 := p.(fields := [], values := [], last := NoneYet);
    assert FeedAll(p, [MessageBegin]) == Feed(FeedAll(p, []), MessageBegin) == p0;
    PiecesAssemble(p0, headers);
    var p1 := FeedAll(p0, Callbacks(headers));
    assert FeedAll(p1, [HeadersComplete]) == Feed(FeedAll(p1, []), HeadersComplete);
  }

  /** Every name is followed by its value, or by None if there are fewer values. */
  predicate InTurn(list: seq<Option<string>>, fields: seq<string>, values: seq<string>) {
    && |list| == 2 * |fields|
    && forall i :: 0 <= i < |fields| ==>
         list[2 * i] == Some(fields[i]) && list[2 * i + 1] == if i < |values| then Some(values[i]) else None
  }

  lemma {:induction false} InterleavedIsInTurn(fields: seq<string>, values: seq<string>)
    ensures InTurn(Interleaved(fields, values), fields, values)
  {
    if fields != [] {
      var before, list, last := Interleaved(Init(fields), values), Interleaved(fields, values), |fields| - 1;
      InterleavedIsInTurn(Init(fields), values);
      forall i | 0 <= i < |fields|
        ensures list[2 * i] == Some(fields[i]) && list[2 * i + 1] == if i < |values| then Some(values[i]) else None
      {
        if i < last { assert Init(fields)[i] == fields[i] && list[2 * i] == before[2 * i] && list[2 * i + 1] == before[2 * i + 1]; }
      }
    }
  }

  /** A list of raw headers says a message's headers: each whole name, then its whole value. */
  predicate Says(list: seq<Option<string>>, headers: seq<Pieces>) {
    && |list| == 2 * |headers|
    && forall k :: 0 <= k < |headers| ==>
         list[2 * k] == Some(Whole(headers[k].name)) && list[2 * k + 1] == Some(Whole(headers[k].value))
  }

  lemma ListSays(headers: seq<Pieces>)
    ensures Says(Interleaved(Names(headers), ValuesOf(headers)), headers)
  {
    InterleavedIsInTurn(Names(headers), ValuesOf(headers));
    var list := Interleaved(Names(headers), ValuesOf(headers));
    forall k | 0 <= k < |headers|
      ensures list[2 * k] == Some(Whole(headers[k].name)) && list[2 * k + 1] == Some(Whole(headers[k].value))
    {
      assert Names(headers)[k] == Whole(headers[k].name) && ValuesOf(headers)[k] == Whole(headers[k].value);
    }
  }

  /** Message after message, the list reported says the message's headers, whatever the cuts. */
  lemma StreamReported(p: Parser, messages: seq<seq<Pieces>>)
    requires forall i :: 0 <= i < |messages| ==> Reported(messages[i])
    ensures var reported := FeedAll(p, Stream(messages)).reported;
            && |reported| == |p.reported| + |messages| && reported[..|p.reported|] == p.reported
            && forall i :: 0 <= i < |messages| ==> Says(reported[|p.reported|..][i], messages[i])
  {
    StreamInterleaved(p, messages);
    assert (p.reported + Lists(messages))[|p.reported|..] == Lists(messages);
    forall i | 0 <= i < |messages| ensures Says(Lists(messages)[i], messages[i]) { ListSays(messages[i]); }
  }

  lemma {:induction false} StreamInterleaved(p: Parser, messages: seq<seq<Pieces>>)
    requires forall i :: 0 <= i < |messages| ==> Reported(messages[i])
    ensures FeedAll(p, Stream(messages)).reported == p.reported + Lists(messages)
  {
    if messages == [] {
      assert p.reported + [] == p.reported;
    } else {
      StreamInterleaved(p, Init(messages));
      FeedConcat(p, Stream(Init(messages)), Message(Last(messages)));
      MessageReported(FeedAll(p, Stream(Init(messages))), Last(messages));
      assert Lists(messages) == Lists(Init(messages)) + [Interleaved(Names(Last(messages)), ValuesOf(Last(messages)))];
    }
  }

  /** Two ways to cut the same headers are reported alike. */
  lemma CutsDoNotMatter(p: Parser, a: seq<Pieces>, b: seq<Pieces>)
    requires Reported(a) && Reported(b) && Names(a) == Names(b) && ValuesOf(a) == ValuesOf(b)
    ensures FeedAll(p, Message(a)).reported == FeedAll(p, Message(b)).reported
  {
    MessageReported(p, a);
    MessageReported(p, b);
  }

  // ---------------------------------------------------------------------
  // Values that are not reported at all
  // ---------------------------------------------------------------------

  function Told(headers: seq<Pieces>): nat {
    if headers == [] then 0 else Told(Init(headers)) + (if Last(headers).value != [] then 1 else 0)
  }

  lemma {:induction false} ToldAll(headers: seq<Pieces>)
    ensures Told(headers) <= |headers|
    ensures Told(headers) == |headers| <==> forall i :: 0 <= i < |headers| ==> headers[i].value != []
  {
    if headers != [] {
      ToldAll(Init(headers));
      if Told(headers) == |headers| {
        forall i | 0 <= i < |headers| ensures headers[i].value != [] {
          if i < |headers| - 1 { assert Init(headers)[i].value != []; }
        }
      } else if Last(headers).value != [] {
        var i :| 0 <= i < |Init(headers)| && Init(headers)[i].value == [];
        assert headers[i].value == [];
      }
    }
  }

  lemma {:induction false} FieldPiecesKeepValues(p: Parser, pieces: seq<string>)
    requires pieces != []
    ensures FeedAll(p, FieldCallbacks(pieces)).values == p.values && FeedAll(p, FieldCallbacks(pieces)).last == Field
  {
    var cs := FieldCallbacks(pieces);
    assert Init(cs) == FieldCallbacks(Init(pieces));
    if |pieces| > 1 { FieldPiecesKeepValues(p, Init(pieces)); }
  }

  /** As many values are collected as were reported; the list pairs up exactly when all were. */
  lemma {:induction false} ValuesCollected(p: Parser, headers: seq<Pieces>)
    requires forall i :: 0 <= i < |headers| ==> headers[i].name != []
    requires p.fields == [] && p.values == [] && p.last == NoneYet
    ensures |FeedAll(p, Callbacks(headers)).values| == Told(headers)
    ensures |FeedAll(p, Callbacks(headers)).values| == |headers| <==>
              forall i :: 0 <= i < |headers| ==> headers[i].value != []
  {
    ToldAll(headers);
    if headers != [] {
      var before, h := Init(headers), Last(headers);
      ValuesCollected(p, before);
      HeaderByHeader(p, headers);
      var p1 := FeedAll(p, Callbacks(before));
      FieldPiecesKeepValues(p1, h.name);
      if h.value != [] {
        ValuePieces(FeedAll(p1, FieldCallbacks(h.name)), h.value);
      }
    }
  }

  // ---------------------------------------------------------------------
  // The object
  // ---------------------------------------------------------------------

  class HttpParser {
    var headersFields: seq<string>
    var headersValues: seq<string>
    var lastHeaderCallback: Kind
    var reported: seq<seq<Option<string>>>

    ghost function Model(): Parser
      reads this
    {
      Parser(headersFields, headersValues, lastHeaderCallback, reported)
    }

    /** An entry was begun before a piece can continue it. */
    ghost predicate Valid()
      reads this
    {
      && (lastHeaderCallback == Field ==> headersFields != [])
      && (lastHeaderCallback == Value ==> headersValues != [])
    }

    constructor ()
      ensures Valid() && Model() == Parser([], [], NoneYet, [])
    {
      headersFields, headersValues, lastHeaderCallback, reported := [], [], NoneYet, [];
    }

    method OnMessageBegin()
      modifies this
      ensures Valid() && Model() == Feed(old(Model()), MessageBegin)
    {
      headersFields := [];
      headersValues := [];
      lastHeaderCallback := NoneYet;
    }

    method OnHeaderField(piece: string)
      requires Valid()
      modifies this
      ensures Valid() && Model() == Feed(old(Model()), HeaderField(piece))
    {
      if lastHeaderCallback == Field {
        var i := |headersFields| - 1;
        headersFields := headersFields[i := headersFields[i] + piece];
        assert headersFields == Init(old(headersFields)) + [Last(old(headersFields)) + piece];
      } else {
        headersFields := headersFields + [piece];
        lastHeaderCallback := Field;
      }
    }

    method OnHeaderValue(piece: string)
      requires Valid()
      modifies this
      ensures Valid() && Model() == Feed(old(Model()), HeaderValue(piece))
    {
      if lastHeaderCallback == Value {
        var i := |headersValues| - 1;
        headersValues := headersValues[i := headersValues[i] + piece];
        assert headersValues == Init(old(headersValues)) + [Last(old(headersValues)) + piece];
      } else {
        headersValues := headersValues + [piece];
        lastHeaderCallback := Value;
      }
    }

    method OnHeadersComplete()
      requires Valid()
      modifies this`reported
      ensures Valid() && Model() == Feed(old(Model()), HeadersComplete)
      ensures |reported| == |old(reported)| + 1 && InTurn(Last(reported), headersFields, headersValues)
    {
      var rawHeaders := [];
      for c := 0 to |headersFields|
        invariant rawHeaders == Interleaved(headersFields[..c], headersValues)
      {
        assert Init(headersFields[..c + 1]) == headersFields[..c];
        rawHeaders := rawHeaders +
          [Some(headersFields[c]), if c < |headersValues| then Some(headersValues[c]) else None];
      }
      assert headersFields[..|headersFields|] == headersFields;
      InterleavedIsInTurn(headersFields, headersValues);
      reported := reported + [rawHeaders];
    }
  }

  /** Any messages, in any pieces, on one parser. */
  method Parse(messages: seq<seq<Pieces>>) returns (p: HttpParser)
    requires forall i :: 0 <= i < |messages| ==> Reported(messages[i])
    ensures fresh(p) && |p.reported| == |messages|
    ensures forall i :: 0 <= i < |messages| ==> Says(p.reported[i], messages[i])
  {
    p := new HttpParser();
    var cs := Stream(messages);
    ghost var p0 := p.Model();
    for i := 0 to |cs|
      invariant fresh(p) && p.Valid() && p.Model() == FeedAll(p0, cs[..i])
    {
      assert Init(cs[..i + 1]) == cs[..i];
      match cs[i] {
        case MessageBegin => p.OnMessageBegin();
        case HeaderField(piece) => p.OnHeaderField(piece);
        case HeaderValue(piece) => p.OnHeaderValue(piece);
        case HeadersComplete => p.OnHeadersComplete();
      }
    }
    assert cs[..|cs|] == cs;
    StreamReported(p0, messages);
    assert p.reported[0..] == p.reported;
  }
}
