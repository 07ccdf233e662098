/** Splitting a string at a two-character separator, and joining it again. */
module Text {
  import opened Prelude

  /** A separator of two different characters, such as a line break. */
  datatype Separator = Separator(first: char, second: char)

  const CRLF := Separator('\r', '\n')
  const COLON := Separator(':', ' ')

  predicate At(s: string, i: nat, sep: Separator) {
    i + 1 < |s| && s[i] == sep.first && s[i + 1] == sep.second
  }

  predicate Free(s: string, sep: Separator) {
    forall i :: 0 <= i < |s| ==> !At(s, i, sep)
  }

  /** Where the separator first occurs. */
  function Find(s: string, sep: Separator, from: nat): (i: Option<nat>)
    requires from <= |s| && forall j :: 0 <= j < from ==> !At(s, j, sep)
    ensures i.None? ==> Free(s, sep)
    ensures i.Some? ==> At(s, i.value, sep) && forall j :: 0 <= j < i.value ==> !At(s, j, sep)
    decreases |s| - from
  {
    if from == |s| then None else if At(s, from, sep) then Some(from) else Find(s, sep, from + 1)
  }

  function IndexOf(s: string, sep: Separator): (i: Option<nat>)
    ensures i.None? <==> Free(s, sep)
    ensures i.Some? ==> At(s, i.value, sep) && forall j :: 0 <= j < i.value ==> !At(s, j, sep)
  {
    Find(s, sep, 0)
  }

  function Split(s: string, sep: Separator): (parts: seq<string>)
    ensures parts != []
    decreases |s|
  {
    match IndexOf(s, sep)
    case None => [s]
    case Some(i) => [s[..i]] + Split(s[i + 2..], sep)
  }

  function Mark(sep: Separator): string {
    [sep.first, sep.second]
  }

  function Join(parts: seq<string>, sep: Separator): string {
    if parts == [] then "" else if |parts| == 1 then parts[0]
    else parts[0] + Mark(sep) + Join(parts[1..], sep)
  }

  lemma {:induction false} JoinOfSplit(s: string, sep: Separator)
    ensures Join(Split(s, sep), sep) == s
    decreases |s|
  {
    match IndexOf(s, sep)
    case None =>
    case Some(i) =>
      JoinOfSplit(s[i + 2..], sep);
      assert Split(s, sep)[1..] == Split(s[i + 2..], sep);
      assert s == s[..i] + Mark(sep) + s[i + 2..];
  }

  lemma PrefixIsFree(s: string, sep: Separator, i: nat)
    requires i <= |s| && forall j :: 0 <= j < i ==> !At(s, j, sep)
    ensures Free(s[..i], sep)
  {
    forall j | 0 <= j < i ensures !At(s[..i], j, sep) {
      assert !At(s, j, sep);
    }
  }

  lemma {:induction false} SplitIsFree(s: string, sep: Separator, k: nat)
    requires k < |Split(s, sep)|
    ensures Free(Split(s, sep)[k], sep)
    decreases |s|
  {
    match IndexOf(s, sep)
    case None =>
    case Some(i) =>
      PrefixIsFree(s, sep, i);
      if k > 0 { SplitIsFree(s[i + 2..], sep, k - 1); }
  }

  lemma SliceIsFree(s: string, sep: Separator, i: nat, j: nat)
    requires Free(s, sep) && i <= j <= |s|
    ensures Free(s[i..j], sep)
  {
    var part := s[i..j];
    forall k | 0 <= k < |part| ensures !At(part, k, sep) {
      assert !At(s, i + k, sep);
    }
  }

  /** Splitting at one separator leaves no other one in the parts that was not in the whole. */
  lemma {:induction false} SplitKeepsFree(s: string, sep: Separator, other: Separator)
    requires Free(s, other)
    ensures AllFree(Split(s, sep), other)
    decreases |s|
  {
    match IndexOf(s, sep)
    case None =>
    case Some(i) =>
      SliceIsFree(s, other, 0, i);
      SliceIsFree(s, other, i + 2, |s|);
      assert s[0..i] == s[..i] && s[i + 2..|s|] == s[i + 2..];
      SplitKeepsFree(s[i + 2..], sep, other);
  }

  /** The separator is first found right after a part that does not contain it. */
  lemma FoundAfterPart(part: string, rest: string, sep: Separator)
    requires Free(part, sep) && sep.first != sep.second
    ensures IndexOf(part + Mark(sep) + rest, sep) == Some(|part|)
  {
    var s := part + Mark(sep) + rest;
    assert At(s, |part|, sep);
    forall j | 0 <= j < |part| ensures !At(s, j, sep) {
      assert !At(part, j, sep);
      if j + 1 < |part| { assert s[j] == part[j] && s[j + 1] == part[j + 1]; }
    }
    assert At(s, IndexOf(s, sep).value, sep);
  }

  predicate AllFree(parts: seq<string>, sep: Separator) {
    forall k :: 0 <= k < |parts| ==> Free(parts[k], sep)
  }

  lemma AllFreeConcat(a: seq<string>, b: seq<string>, sep: Separator)
    requires AllFree(a, sep) && AllFree(b, sep)
    ensures AllFree(a + b, sep)
  {
  }

  lemma AllFreeSlice(parts: seq<string>, i: nat, j: nat, sep: Separator)
    requires AllFree(parts, sep) && i <= j <= |parts|
    ensures AllFree(parts[i..j], sep)
  {
  }

  lemma {:induction false} SplitOfJoin(parts: seq<string>, sep: Separator)
    requires parts != [] && sep.first != sep.second && AllFree(parts, sep)
    ensures Split(Join(parts, sep), sep) == parts
  {
    if |parts| == 1 {
    } else {
      var rest := Join(parts[1..], sep);
      SplitOfJoin(parts[1..], sep);
      FoundAfterPart(parts[0], rest, sep);
      var s := Join(parts, sep);
      assert s[..|parts[0]|] == parts[0] && s[|parts[0]| + 2..] == rest;
    }
  }

  lemma {:induction false} JoinConcat(a: seq<string>, b: seq<string>, sep: Separator)
    requires a != [] && b != []
    ensures Join(a + b, sep) == Join(a, sep) + Mark(sep) + Join(b, sep)
  {
    assert (a + b)[1..] == a[1..] + b;
    if |a| == 1 {
      assert a[1..] + b == b;
    } else {
      JoinConcat(a[1..], b, sep);
      assert a[0] + Mark(sep) + (Join(a[1..], sep) + Mark(sep) + Join(b, sep)) ==
             (a[0] + Mark(sep) + Join(a[1..], sep)) + Mark(sep) + Join(b, sep);
    }
  }

  lemma JoinOfThree(a: string, b: string, tail: seq<string>, sep: Separator)
    requires tail != []
    ensures Join([a, b] + tail, sep) == a + Mark(sep) + (b + Mark(sep) + Join(tail, sep))
  {
    assert ([a, b] + tail)[1..] == [b] + tail && ([b] + tail)[1..] == tail;
  }
}
