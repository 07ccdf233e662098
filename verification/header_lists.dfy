/**
 Header lists as the Fetch Standard keeps them (section 2.2.2), and what iterating over
 "Headers" gives back.
 */
module HeaderLists {
  import opened Prelude

  datatype Header = Header(name: string, value: string)

  type HeaderList = seq<Header>

  function LowerChar(c: char): char {
    if 'A' <= c <= 'Z' then c - 'A' + 'a' else c
  }

  function Lower(s: string): (r: string)
    ensures |r| == |s|
  {
    seq(|s|, i requires 0 <= i < |s| => LowerChar(s[i]))
  }

  /** Names are compared without regard to case. */
  predicate Named(h: Header, name: string) {
    Lower(h.name) == Lower(name)
  }

  predicate Has(l: HeaderList, name: string) {
    exists i :: 0 <= i < |l| && Named(l[i], name)
  }

  function Values(l: HeaderList, name: string): seq<string> {
    if l == [] then [] else (if Named(l[0], name) then [l[0].value] else []) + Values(l[1..], name)
  }

  function Without(l: HeaderList, name: string): HeaderList {
    if l == [] then [] else (if Named(l[0], name) then [] else [l[0]]) + Without(l[1..], name)
  }

  // ---------------------------------------------------------------------
  // The header list of the Fetch Standard
  // ---------------------------------------------------------------------

  /** How the first header of that name is written. */
  function NameInList(l: HeaderList, name: string): (r: string)
    ensures Lower(r) == Lower(name)
  {
    if l == [] then name else if Named(l[0], name) then l[0].name else NameInList(l[1..], name)
  }

  function ListAppend(l: HeaderList, name: string, value: string): HeaderList {
    l + [Header(NameInList(l, name), value)]
  }

  /** The first header of that name gets the value, the others go. */
  function SetFirst(l: HeaderList, name: string, value: string): HeaderList {
    if l == [] then []
    else if Named(l[0], name) then [Header(l[0].name, value)] + Without(l[1..], name)
    else [l[0]] + SetFirst(l[1..], name, value)
  }

  function ListSet(l: HeaderList, name: string, value: string): HeaderList {
    if Has(l, name) then SetFirst(l, name, value) else l + [Header(name, value)]
  }

  function FromInit(init: HeaderList): HeaderList {
    if init == [] then [] else ListAppend(FromInit(Init(init)), Last(init).name, Last(init).value)
  }

  // ---------------------------------------------------------------------
  // The values of a name
  // ---------------------------------------------------------------------

  predicate SameName(a: string, b: string) {
    Lower(a) == Lower(b)
  }

  /** The same letter, small or capital, or the same character. */
  predicate SameLetter(a: char, b: char) {
    a == b || ('A' <= a <= 'Z' && b == a - 'A' + 'a') || ('A' <= b <= 'Z' && a == b - 'A' + 'a')
  }

  /** Names are the same exactly when they are, letter by letter, but for their case. */
  lemma {:induction false} CaseDoesNotMatter(a: string, b: string)
    ensures SameName(a, b) <==> |a| == |b| && forall i :: 0 <= i < |a| ==> SameLetter(a[i], b[i])
  {
    if SameName(a, b) {
      forall i | 0 <= i < |a| ensures SameLetter(a[i], b[i]) {
        assert Lower(a)[i] == Lower(b)[i];
      }
    }
  }

  lemma {:induction false} ValuesConcat(a: HeaderList, b: HeaderList, name: string)
    ensures Values(a + b, name) == Values(a, name) + Values(b, name)
  {
    if a == [] {
      assert a + b == b;
    } else {
      assert (a + b)[1..] == a[1..] + b;
      ValuesConcat(a[1..], b, name);
    }
  }

  lemma ValuesSnoc(l: HeaderList, h: Header, name: string)
    ensures Values(l + [h], name) == Values(l, name) + (if Named(h, name) then [h.value] else [])
  {
    ValuesConcat(l, [h], name);
    assert Values([h][1..], name) == [];
  }

  lemma {:induction false} ValuesWithout(l: HeaderList, gone: string, name: string)
    ensures Values(Without(l, gone), name) == if SameName(gone, name) then [] else Values(l, name)
  {
    if l != [] {
      ValuesWithout(l[1..], gone, name);
      ValuesConcat(if Named(l[0], gone) then [] else [l[0]], Without(l[1..], gone), name);
    }
  }

  lemma {:induction false} HasIffValues(l: HeaderList, name: string)
    ensures Has(l, name) <==> Values(l, name) != []
  {
    if l != [] {
      HasIffValues(l[1..], name);
      if Has(l[1..], name) {
        var i :| 0 <= i < |l[1..]| && Named(l[1..][i], name);
        assert Named(l[i + 1], name);
      }
      if Has(l, name) && !Named(l[0], name) {
        var i :| 0 <= i < |l| && Named(l[i], name);
        assert Named(l[1..][i - 1], name);
      }
    }
  }

  lemma {:induction false} ValuesSetFirst(l: HeaderList, put: string, value: string, name: string)
    requires Has(l, put)
    ensures Values(SetFirst(l, put, value), name) == if SameName(put, name) then [value] else Values(l, name)
  {
    HasIffValues(l, put);
    var rest := l[1..];
    if Named(l[0], put) {
      ValuesWithout(rest, put, name);
      ValuesConcat([Header(l[0].name, value)], Without(rest, put), name);
    } else {
      HasIffValues(rest, put);
      ValuesSetFirst(rest, put, value, name);
      ValuesConcat([l[0]], SetFirst(rest, put, value), name);
    }
  }

  lemma {:induction false} ValuesFromInit(init: HeaderList, name: string)
    ensures Values(FromInit(init), name) == Values(init, name)
  {
    if init != [] {
      var before := FromInit(Init(init));
      ValuesFromInit(Init(init), name);
      ValuesSnoc(before, Header(NameInList(before, Last(init).name), Last(init).value), name);
      ValuesSnoc(Init(init), Last(init), name);
      InitLast(init);
    }
  }

  lemma {:induction false} ValuesOfSameName(l: HeaderList, a: string, b: string)
    ensures SameName(a, b) ==> Values(l, a) == Values(l, b)
  {
    if l != [] { ValuesOfSameName(l[1..], a, b); }
  }

  lemma HasSnoc(l: HeaderList, name: string)
    requires l != []
    ensures Has(l, name) <==> Has(Init(l), name) || Named(Last(l), name)
  {
    if Has(Init(l), name) {
      var i :| 0 <= i < |Init(l)| && Named(Init(l)[i], name);
      assert Named(l[i], name);
    }
    if Has(l, name) && !Named(Last(l), name) {
      var i :| 0 <= i < |l| && Named(l[i], name);
      assert Named(Init(l)[i], name);
    }
  }

  lemma ValuesAfterSet(l: HeaderList, name: string, value: string, n: string)
    ensures Values(ListSet(l, name, value), n) == if SameName(name, n) then [value] else Values(l, n)
  {
    if Has(l, name) {
      ValuesSetFirst(l, name, value, n);
    } else {
      HasIffValues(l, name);
      ValuesOfSameName(l, name, n);
      ValuesSnoc(l, Header(name, value), n);
    }
  }

  lemma HasOfSameName(l: HeaderList, a: string, b: string)
    requires SameName(a, b)
    ensures Has(l, a) <==> Has(l, b)
  {
    HasIffValues(l, a);
    HasIffValues(l, b);
    ValuesOfSameName(l, a, b);
  }

  // ---------------------------------------------------------------------
  // What "Headers" gives back
  // ---------------------------------------------------------------------

  function Combined(values: seq<string>): string {
    if values == [] then "" else if |values| == 1 then values[0] else values[0] + ", " + Combined(values[1..])
  }

  /** The merged value of a header; None for one that is not there (null). */
  function Get(l: HeaderList, name: string): Option<string> {
    if Values(l, name) == [] then None else Some(Combined(Values(l, name)))
  }

  predicate Before(a: string, b: string) {
    b != [] && (a == [] || a[0] < b[0] || (a[0] == b[0] && Before(a[1..], b[1..])))
  }

  /** A name goes where it belongs in a sorted list. */
  function Insert(name: string, names: seq<string>): seq<string> {
    if names == [] || Before(name, names[0]) then [name] + names
    else [names[0]] + Insert(name, names[1..])
  }

  /** The lower-case names of a header list, each once, sorted. */
  function SortedNames(l: HeaderList): seq<string> {
    if l == [] then [] else
      var names := SortedNames(l[1..]);
      if Lower(l[0].name) in names then names else Insert(Lower(l[0].name), names)
  }

  function Each(name: string, values: seq<string>): HeaderList {
    seq(|values|, i requires 0 <= i < |values| => Header(name, values[i]))
  }

  /** One entry for a name, but one for every "Set-Cookie". */
  function EntriesOf(l: HeaderList, name: string): HeaderList {
    if name == "set-cookie" then Each(name, Values(l, name)) else [Header(name, Combined(Values(l, name)))]
  }

  function EntriesFor(l: HeaderList, names: seq<string>): HeaderList {
    if names == [] then [] else EntriesOf(l, names[0]) + EntriesFor(l, names[1..])
  }

  function Entries(l: HeaderList): HeaderList {
    EntriesFor(l, SortedNames(l))
  }

  // ---------------------------------------------------------------------
  // What the entries are
  // ---------------------------------------------------------------------

  predicate Distinct(names: seq<string>) {
    forall i, j :: 0 <= i < j < |names| ==> names[i] != names[j]
  }

  lemma {:induction false} InsertAdds(name: string, names: seq<string>, x: string)
    ensures x in Insert(name, names) <==> x == name || x in names
  {
    if names != [] && !Before(name, names[0]) {
      InsertAdds(name, names[1..], x);
    }
  }

  lemma {:induction false} InsertDistinct(name: string, names: seq<string>)
    requires Distinct(names) && name !in names
    ensures Distinct(Insert(name, names))
  {
    if names != [] && !Before(name, names[0]) {
      InsertDistinct(name, names[1..]);
      InsertAdds(name, names[1..], names[0]);
    }
  }

  lemma {:induction false} NamesAreDistinct(l: HeaderList)
    ensures Distinct(SortedNames(l))
  {
    if l != [] {
      NamesAreDistinct(l[1..]);
      if Lower(l[0].name) !in SortedNames(l[1..]) {
        InsertDistinct(Lower(l[0].name), SortedNames(l[1..]));
      }
    }
  }

  lemma {:induction false} NamesAreTheList(l: HeaderList, name: string)
    ensures Lower(name) in SortedNames(l) <==> Values(l, name) != []
  {
    if l != [] {
      NamesAreTheList(l[1..], name);
      InsertAdds(Lower(l[0].name), SortedNames(l[1..]), Lower(name));
    }
  }

  lemma LowerTwice(s: string)
    ensures Lower(Lower(s)) == Lower(s)
  {
  }

  lemma {:induction false} NamesAreLower(l: HeaderList, x: string)
    requires x in SortedNames(l)
    ensures Lower(x) == x && exists i :: 0 <= i < |l| && x == Lower(l[i].name)
  {
    InsertAdds(Lower(l[0].name), SortedNames(l[1..]), x);
    LowerTwice(l[0].name);
    if x in SortedNames(l[1..]) {
      NamesAreLower(l[1..], x);
      var i :| 0 <= i < |l[1..]| && x == Lower(l[1..][i].name);
      assert x == Lower(l[i + 1].name);
    } else {
      assert x == Lower(l[0].name);
    }
  }

  predicate SortedList(names: seq<string>) {
    forall i :: 0 <= i < |names| - 1 ==> Before(names[i], names[i + 1])
  }

  lemma {:induction false} BeforeIsTotal(a: string, b: string)
    ensures a == b || Before(a, b) || Before(b, a)
  {
    if a != [] && b != [] && a[0] == b[0] {
      BeforeIsTotal(a[1..], b[1..]);
      if a[1..] == b[1..] { assert a == [a[0]] + a[1..] && b == [b[0]] + b[1..]; }
    }
  }

  lemma {:induction false} InsertSorted(name: string, names: seq<string>)
    requires SortedList(names) && name !in names
    ensures SortedList(Insert(name, names))
    ensures Insert(name, names)[0] == name || (names != [] && Insert(name, names)[0] == names[0])
  {
    if names != [] && !Before(name, names[0]) {
      BeforeIsTotal(name, names[0]);
      InsertSorted(name, names[1..]);
    }
  }

  /** The entries come in the order of their lower-case names. */
  lemma {:induction false} NamesAreSorted(l: HeaderList)
    ensures SortedList(SortedNames(l))
  {
    if l != [] {
      NamesAreSorted(l[1..]);
      if Lower(l[0].name) !in SortedNames(l[1..]) {
        InsertSorted(Lower(l[0].name), SortedNames(l[1..]));
      }
    }
  }

  lemma {:induction false} ValuesOfEach(x: string, values: seq<string>, name: string)
    ensures Values(Each(x, values), name) == if Lower(x) == Lower(name) then values else []
  {
    if values != [] {
      assert Each(x, values)[1..] == Each(x, values[1..]);
      ValuesOfEach(x, values[1..], name);
    }
  }

  lemma ValuesOfEntriesOf(l: HeaderList, x: string, name: string)
    requires Lower(x) == x
    ensures Values(EntriesOf(l, x), name) ==
            if x != Lower(name) then []
            else if x == "set-cookie" then Values(l, name) else [Combined(Values(l, name))]
  {
    ValuesOfSameName(l, x, name);
    ValuesOfEach(x, Values(l, x), name);
  }

  lemma {:induction false} ValuesOfEntriesFor(l: HeaderList, names: seq<string>, name: string)
    requires Distinct(names) && forall x :: x in names ==> Lower(x) == x
    ensures Values(EntriesFor(l, names), name) ==
            if Lower(name) in names then Values(EntriesOf(l, Lower(name)), name) else []
  {
    if names != [] {
      ValuesOfEntriesFor(l, names[1..], name);
      ValuesConcat(EntriesOf(l, names[0]), EntriesFor(l, names[1..]), name);
      ValuesOfEntriesOf(l, names[0], name);
      if Lower(name) in names && Lower(name) != names[0] {
        assert Lower(name) in names[1..];
      }
    }
  }

  /** Iterating over headers gives one merged entry for a name, but every "Set-Cookie" by itself. */
  lemma EntryValues(l: HeaderList, name: string)
    ensures Values(Entries(l), name) ==
            if Values(l, name) == [] || Lower(name) == "set-cookie" then Values(l, name)
            else [Combined(Values(l, name))]
  {
    NamesAreDistinct(l);
    NamesAreTheList(l, name);
    forall x | x in SortedNames(l) ensures Lower(x) == x { NamesAreLower(l, x); }
    ValuesOfEntriesFor(l, SortedNames(l), name);
    LowerTwice(name);
    if Lower(name) in SortedNames(l) { ValuesOfEntriesOf(l, Lower(name), name); }
  }

  lemma {:induction false} CombinedSnoc(values: seq<string>, value: string)
    requires values != []
    ensures Combined(values + [value]) == Combined(values) + ", " + value
  {
    assert (values + [value])[1..] == values[1..] + [value];
    if |values| == 1 {
      assert Combined([value]) == value;
      assert values[1..] + [value] == [value];
    } else {
      CombinedSnoc(values[1..], value);
    }
  }

  /** A header that is appended to keeps its merged value, followed by a comma, a space and the new one. */
  lemma {:induction false} AppendMerges(l: HeaderList, name: string, value: string)
    ensures Get(ListAppend(l, name, value), name) ==
            Some(if Get(l, name).None? then value else Get(l, name).value + ", " + value)
    ensures Get(l, name).None? <==> !Has(l, name)
  {
    HasIffValues(l, name);
    ValuesSnoc(l, Header(NameInList(l, name), value), name);
    if Has(l, name) { CombinedSnoc(Values(l, name), value); }
  }

  /** A header that is set has that value alone; one that is deleted is not there. */
  lemma {:induction false} SetAlone(l: HeaderList, name: string, value: string)
    ensures Get(ListSet(l, name, value), name) == Some(value) && Get(Without(l, name), name) == None
  {
    ValuesAfterSet(l, name, value, name);
    ValuesWithout(l, name, name);
  }

  // ---------------------------------------------------------------------
  // What the platform takes
  // ---------------------------------------------------------------------

  /** A character of a token (section 5.6.2 of RFC 9110). */
  predicate TokenChar(c: char) {
    'a' <= c <= 'z' || 'A' <= c <= 'Z' || '0' <= c <= '9' || c in "!#$%&'*+-.^_`|~"
  }

  /** That is: a visible ASCII character that is no delimiter. */
  lemma TokenCharIs(c: char)
    ensures TokenChar(c) <==> '!' <= c <= '~' && c !in "\"(),/:;<=>?@[\\]{}"
  {
  }

  predicate Token(name: string) {
    name != "" && forall i :: 0 <= i < |name| ==> TokenChar(name[i])
  }

  predicate Whitespace(c: char) {
    c in " \t\r\n"
  }

  function TrimLeft(v: string): string {
    if v != "" && Whitespace(v[0]) then TrimLeft(v[1..]) else v
  }

  function TrimRight(v: string): string {
    if v != "" && Whitespace(Last(v)) then TrimRight(Init(v)) else v
  }

  /** Bytes, and once trimmed none of them ends a line or is null. */
  predicate ValidValue(v: string) {
    && (forall i :: 0 <= i < |v| ==> v[i] <= '\U{ff}')
    && var trimmed := TrimRight(TrimLeft(v));
       forall i :: 0 <= i < |trimmed| ==> trimmed[i] !in "\0\r\n"
  }

  /** Appending anything else throws. */
  predicate Taken(h: Header) {
    Token(h.name) && ValidValue(h.value)
  }

  predicate AllTaken(l: HeaderList) {
    forall i :: 0 <= i < |l| ==> Taken(l[i])
  }
}
