/**
 Raw headers: the list of names and values as they were given, kept beside the header
 list of the Fetch Standard (section 2.2.2), which forgets how names were written.
 */
module RawHeaders {
  import opened HeaderLists
  import opened Prelude

  // ---------------------------------------------------------------------
  // The two lists side by side
  // ---------------------------------------------------------------------

  datatype Headers = Headers(list: HeaderList, raw: HeaderList)

  datatype Op =
    | Append(name: string, value: string)
    | Set(name: string, value: string)
    | Delete(name: string)

  function Perform(h: Headers, op: Op): Headers {
    match op
    case Append(name, value) => Headers(ListAppend(h.list, name, value), h.raw + [Header(name, value)])
    case Set(name, value) => Headers(ListSet(h.list, name, value), Without(h.raw, name) + [Header(name, value)])
    case Delete(name) => Headers(Without(h.list, name), Without(h.raw, name))
  }

  function Run(h: Headers, ops: seq<Op>): Headers {
    if ops == [] then h else Perform(Run(h, Init(ops)), Last(ops))
  }

  /** Headers whose initial names and values were recorded. */
  function Recorded(init: HeaderList): Headers {
    Headers(FromInit(init), init)
  }

  predicate Agree(h: Headers, name: string) {
    Values(h.raw, name) == Values(h.list, name)
  }

  /** Whether an operation gives a header all its values anew, or takes them all. */
  predicate Renews(op: Op, name: string) {
    !op.Append? && SameName(op.name, name)
  }

  predicate Renewed(ops: seq<Op>, name: string) {
    ops != [] && (Renewed(Init(ops), name) || Renews(Last(ops), name))
  }

  lemma AppendAgreesIff(h: Headers, n: string, v: string, name: string)
    ensures Agree(Perform(h, Append(n, v)), name) <==> Agree(h, name)
  {
    ValuesSnoc(h.raw, Header(n, v), name);
    ValuesSnoc(h.list, Header(NameInList(h.list, n), v), name);
    var a, b := Values(h.raw, name), Values(h.list, name);
    assert a + [] == a && b + [] == b;
    if a + [v] == b + [v] {
      assert a == Init(a + [v]) == Init(b + [v]) == b;
    }
  }

  lemma SetAgreesIff(h: Headers, n: string, v: string, name: string)
    ensures Agree(Perform(h, Set(n, v)), name) <==> Agree(h, name) || SameName(n, name)
  {
    ValuesWithout(h.raw, n, name);
    ValuesSnoc(Without(h.raw, n), Header(n, v), name);
    ValuesAfterSet(h.list, n, v, name);
  }

  lemma DeleteAgreesIff(h: Headers, n: string, name: string)
    ensures Agree(Perform(h, Delete(n)), name) <==> Agree(h, name) || SameName(n, name)
  {
    ValuesWithout(h.raw, n, name);
    ValuesWithout(h.list, n, name);
  }

  /**
   After any operations on any headers, recorded from the start or not: the raw list has the
   header list's values of a name, in order, exactly when it had them at the start, or when
   some operation renewed the name.
   */
  lemma {:induction false} AgreesIff(h: Headers, ops: seq<Op>, name: string)
    ensures Agree(Run(h, ops), name) <==> Agree(h, name) || Renewed(ops, name)
  {
    if ops != [] {
      var before := Run(h, Init(ops));
      AgreesIff(h, Init(ops), name);
      match Last(ops)
      case Append(n, v) => AppendAgreesIff(before, n, v, name);
      case Set(n, v) => SetAgreesIff(before, n, v, name);
      case Delete(n) => DeleteAgreesIff(before, n, name);
    }
  }

  /** Headers recorded from the start: the two lists agree on every name, whatever is done to them. */
  lemma RawAgreesWithList(init: HeaderList, ops: seq<Op>, name: string)
    ensures Agree(Run(Recorded(init), ops), name)
  {
    ValuesFromInit(init, name);
    AgreesIff(Recorded(init), ops, name);
  }

  /** The pairs somebody wrote. */
  function Written(raw: HeaderList, ops: seq<Op>): HeaderList {
    if ops == [] then raw else
      Written(raw, Init(ops)) +
        (if Last(ops).Delete? then [] else [Header(Last(ops).name, Last(ops).value)])
  }

  lemma {:induction false} WithoutKeepsOthers(l: HeaderList, name: string, h: Header)
    ensures h in Without(l, name) <==> h in l && !Named(h, name)
  {
    if l != [] { WithoutKeepsOthers(l[1..], name, h); }
  }

  /** Every raw header is, letter by letter, one that was given. */
  lemma {:induction false} RawIsVerbatim(start: Headers, ops: seq<Op>, h: Header)
    requires h in Run(start, ops).raw
    ensures h in Written(start.raw, ops)
  {
    if ops != [] {
      var before, op := Run(start, Init(ops)), Last(ops);
      if !op.Append? { WithoutKeepsOthers(before.raw, op.name, h); }
      if h in before.raw { RawIsVerbatim(start, Init(ops), h); }
    }
  }

  /**
   The raw headers an operation does not concern stay as they are and in their order; what it
   gives comes last.
   */
  lemma {:induction false} RawKeepsOrder(start: Headers, ops: seq<Op>, op: Op)
    ensures var raw, raw' := Run(start, ops).raw, Run(start, ops + [op]).raw;
            match op
            case Append(name, value) => raw' == raw + [Header(name, value)]
            case Set(name, value) =>
              raw' != [] && Last(raw') == Header(name, value) && Init(raw') == Without(raw, name)
            case Delete(name) => raw' == Without(raw, name)
  {
    InitOfSnoc(ops, op);
    if op.Set? { InitOfSnoc(Without(Run(start, ops).raw, op.name), Header(op.name, op.value)); }
  }

  // ---------------------------------------------------------------------
  // Reading raw headers
  // ---------------------------------------------------------------------

  /** The raw list, or what iterating over the headers gives if nothing was recorded. */
  function RawFetchHeaders(h: Headers): HeaderList {
    if h.raw != [] then h.raw else Entries(h.list)
  }

  /** What is read says all the values of a name: one by one, or merged if nothing was recorded. */
  predicate Complete(h: Headers, name: string) {
    var all, read := Values(h.list, name), Values(RawFetchHeaders(h), name);
    read == all || (h.raw == [] && read == [Combined(all)])
  }

  /**
   What is read of any headers after any operations is complete exactly when there is
   nothing recorded to read, or the lists agreed at the start, or the name was renewed.
   */
  lemma CompleteIff(h: Headers, ops: seq<Op>, name: string)
    ensures Complete(Run(h, ops), name) <==>
              Run(h, ops).raw == [] || Agree(h, name) || Renewed(ops, name)
  {
    AgreesIff(h, ops, name);
    EntryValues(Run(h, ops).list, name);
  }

  /** Of headers recorded from the start the raw list is read, and never the fallback's entries instead. */
  lemma FallbackIsEmpty(init: HeaderList, ops: seq<Op>)
    ensures var h := Run(Recorded(init), ops); RawFetchHeaders(h) == h.raw && (h.raw == [] <==> h.list == [])
  {
    var h := Run(Recorded(init), ops);
    if h.list != [] { RawAgreesWithList(init, ops, h.list[0].name); }
    if h.raw != [] { RawAgreesWithList(init, ops, h.raw[0].name); }
  }

  /** Headers not recorded at the start: one append, and the value they had is read no more. */
  lemma UnrecordedValueIsLost(name: string, older: string, newer: string)
    ensures var h := Headers([Header(name, older)], []);
            var h' := Run(h, [Append(name, newer)]);
            && RawFetchHeaders(h) == [Header(Lower(name), older)]
            && RawFetchHeaders(h') == [Header(name, newer)]
            && Values(h'.list, name) == [older, newer]
  {
    var h := Headers([Header(name, older)], []);
    InitOfSnoc([], Append(name, newer));
    assert Run(h, [Append(name, newer)]) == Perform(Run(h, []), Append(name, newer));
    ValuesSnoc(h.list, Header(NameInList(h.list, name), newer), name);
    assert h.list[1..] == [];
    assert Values(h.list, name) == [older] + Values(h.list[1..], name);
    assert SortedNames(h.list) == [Lower(name)] by { assert SortedNames(h.list[1..]) == []; }
    LowerTwice(name);
    ValuesOfSameName(h.list, Lower(name), name);
    assert EntriesFor(h.list, [Lower(name)]) == EntriesOf(h.list, Lower(name)) + EntriesFor(h.list, []) by {
      assert [Lower(name)][1..] == [];
    }
    assert EntriesOf(h.list, Lower(name)) == [Header(Lower(name), older)];
  }

  // ---------------------------------------------------------------------
  // Copying raw headers
  // ---------------------------------------------------------------------

  /** The source's raw headers, then the destination's entries whose name is not there yet. */
  function Copied(raw: HeaderList, entries: HeaderList): HeaderList {
    if entries == [] then raw else
      var before := Copied(raw, Init(entries));
      if Has(before, Last(entries).name) then before else before + [Last(entries)]
  }

  function FirstOf(values: seq<string>): seq<string> {
    if values == [] then [] else values[..1]
  }

  lemma FirstOfSnoc(values: seq<string>, v: string)
    ensures FirstOf(values + [v]) == if values == [] then [v] else FirstOf(values)
  {
  }

  /** One more entry is added exactly when its name is not there yet. */
  lemma CopiedEntry(before: HeaderList, e: Header, name: string)
    ensures Values(if Has(before, e.name) then before else before + [e], name) ==
            if SameName(e.name, name) && !Has(before, name) then Values(before, name) + [e.value]
            else Values(before, name)
  {
    hide Lower;
    ValuesSnoc(before, e, name);
    HasIffValues(before, e.name);
    HasIffValues(before, name);
    if SameName(e.name, name) { ValuesOfSameName(before, e.name, name); }
  }

  lemma {:induction false} CopiedValues(raw: HeaderList, entries: HeaderList, name: string)
    ensures Values(Copied(raw, entries), name) ==
            if Has(raw, name) then Values(raw, name) else FirstOf(Values(entries, name))
  {
    HasIffValues(raw, name);
    if entries != [] {
      var before, e := Copied(raw, Init(entries)), Last(entries);
      CopiedValues(raw, Init(entries), name);
      CopiedEntry(before, e, name);
      HasIffValues(before, name);
      InitLast(entries);
      ValuesSnoc(Init(entries), e, name);
      hide Values, Has, Named, SameName;
      FirstOfSnoc(Values(Init(entries), name), e.value);
    }
  }

  /**
   The copy keeps what the source recorded, and of a header only the destination has,
   all values exactly when it has one entry: of several "Set-Cookie" the first one.
   */
  lemma CopyIsCompleteIff(raw: HeaderList, entries: HeaderList, name: string)
    ensures Has(raw, name) ==> Values(Copied(raw, entries), name) == Values(raw, name)
    ensures !Has(raw, name) ==>
              (Values(Copied(raw, entries), name) == Values(entries, name) <==> |Values(entries, name)| <= 1)
  {
    CopiedValues(raw, entries, name);
    HasIffValues(entries, name);
  }

  /** A copy begins with what the source recorded; the rest are headers of the destination, in their order. */
  lemma {:induction false} CopyBeginsWithSource(raw: HeaderList, entries: HeaderList)
    ensures raw <= Copied(raw, entries)
    ensures entries != [] ==> Copied(raw, Init(entries)) <= Copied(raw, entries)
    ensures forall i :: |raw| <= i < |Copied(raw, entries)| ==> Copied(raw, entries)[i] in entries
  {
    if entries != [] {
      CopyBeginsWithSource(raw, Init(entries));
      InitLast(entries);
    }
  }

  // ---------------------------------------------------------------------
  // The object
  // ---------------------------------------------------------------------

  /** The list when everything from a position on has been dealt with. */
  function Cleaned(raw: HeaderList, i: nat, name: string): HeaderList
    requires i <= |raw|
  {
    raw[..i] + Without(raw[i..], name)
  }

  function Spliced(l: HeaderList, i: nat): HeaderList
    requires i < |l|
  {
    l[..i] + l[i + 1..]
  }

  /** One turn of the loop: splice a position out, or leave it. */
  lemma SpliceStep(raw: HeaderList, i: nat, name: string)
    requires i < |raw|
    ensures var now := Cleaned(raw, i + 1, name);
            && i < |now| && now[i] == raw[i]
            && Cleaned(raw, i, name) == if Named(raw[i], name) then Spliced(now, i) else now
  {
    assert raw[i..][1..] == raw[i + 1..];
    assert raw[..i + 1] == raw[..i] + [raw[i]];
  }

  lemma CleanedEnds(raw: HeaderList, name: string)
    ensures Cleaned(raw, |raw|, name) == raw && Cleaned(raw, 0, name) == Without(raw, name)
  {
    assert raw[..|raw|] == raw && raw[0..] == raw;
  }

  class RecordedHeaders {
    var list: HeaderList
    var rawHeaders: HeaderList

    ghost function Model(): Headers
      reads this
    {
      Headers(list, rawHeaders)
    }

    constructor (list: HeaderList, raw: HeaderList)
      ensures Model() == Headers(list, raw)
    {
      this.list, rawHeaders := list, raw;
    }

    /** Backwards over the list, splicing out what has that name. */
    method RemoveRaw(name: string)
      modifies this`rawHeaders
      ensures rawHeaders == Without(old(rawHeaders), name)
    {
      hide Cleaned, Without;
      ghost var raw := rawHeaders;
      CleanedEnds(raw, name);
      var index := |rawHeaders| - 1;
      while index >= 0
        invariant -1 <= index < |raw|
        invariant rawHeaders == Cleaned(raw, index + 1, name)
      {
        SpliceStep(raw, index, name);
        if Lower(rawHeaders[index].name) == Lower(name) {
          rawHeaders := rawHeaders[..index] + rawHeaders[index + 1..];
        }
        index := index - 1;
      }
    }

    method RecordRawHeader(name: string, value: string, replace: bool)
      modifies this`rawHeaders
      ensures rawHeaders == (if replace then Without(old(rawHeaders), name) else old(rawHeaders)) + [Header(name, value)]
    {
      if replace {
        RemoveRaw(name);
      }
      rawHeaders := rawHeaders + [Header(name, value)];
    }

    method SetHeader(name: string, value: string)
      modifies this
      ensures Model() == Perform(old(Model()), Set(name, value))
    {
      RecordRawHeader(name, value, true);
      list := ListSet(list, name, value);
    }

    method AppendHeader(name: string, value: string)
      modifies this
      ensures Model() == Perform(old(Model()), Append(name, value))
    {
      RecordRawHeader(name, value, false);
      list := ListAppend(list, name, value);
    }

    method DeleteHeader(name: string)
      modifies this
      ensures Model() == Perform(old(Model()), Delete(name))
    {
      RemoveRaw(name);
      list := Without(list, name);
    }

    method GetRawFetchHeaders() returns (headers: HeaderList)
      ensures headers == RawFetchHeaders(Model())
    {
      headers := if rawHeaders != [] then rawHeaders else Entries(list);
    }

    /** Take over the raw headers of another object. */
    method CopyRawHeaders(source: HeaderList, entries: HeaderList)
      modifies this`rawHeaders
      ensures rawHeaders == if source == [] then old(rawHeaders) else Copied(source, entries)
    {
      if source == [] {
        return;
      }
      var raw := source;
      for i := 0 to |entries|
        invariant raw == Copied(source, entries[..i])
      {
        assert Init(entries[..i + 1]) == entries[..i];
        var absent := true;
        for j := 0 to |raw|
          invariant absent <==> forall k :: 0 <= k < j ==> !Named(raw[k], entries[i].name)
        {
          absent := absent && Lower(raw[j].name) != Lower(entries[i].name);
        }
        if absent {
          raw := raw + [entries[i]];
        }
      }
      assert entries[..|entries|] == entries;
      rawHeaders := raw;
    }
  }

  /** Any operations on the object: its two lists agree on a name exactly as the lemmas say. */
  method Live(start: Headers, ops: seq<Op>) returns (h: RecordedHeaders)
    ensures fresh(h) && h.Model() == Run(start, ops)
    ensures forall name :: Values(h.rawHeaders, name) == Values(h.list, name) <==> Agree(start, name) || Renewed(ops, name)
  {
    h := new RecordedHeaders(start.list, start.raw);
    for i := 0 to |ops|
      invariant fresh(h) && h.Model() == Run(start, ops[..i])
    {
      assert Init(ops[..i + 1]) == ops[..i];
      match ops[i] {
        case Append(name, value) => h.AppendHeader(name, value);
        case Set(name, value) => h.SetHeader(name, value);
        case Delete(name) => h.DeleteHeader(name);
      }
    }
    assert ops[..|ops|] == ops;
    forall name ensures Values(h.rawHeaders, name) == Values(h.list, name) <==> Agree(start, name) || Renewed(ops, name) {
      AgreesIff(start, ops, name);
    }
  }
}
