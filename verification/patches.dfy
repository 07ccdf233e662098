/**
 Patching properties of shared objects and putting them back: which own descriptor a
 patch leaves, what its restore function captures, and what restoring brings back.
 Objects follow the ordinary internal methods of ECMA-262, section 10.1.
 */
module Patches {
  import opened Prelude

  type Key = string
  type Value = nat

  datatype Descriptor =
    | Data(value: Value, writable: bool, enumerable: bool, configurable: bool)
    | Accessor(getter: Value, setter: Value, enumerable: bool, configurable: bool)

  /** A descriptor handed to "defineProperty"; absent fields are None. */
  datatype Partial = Partial(
    value: Option<Value>,
    writable: Option<bool>,
    getter: Option<Value>,
    setter: Option<Value>,
    enumerable: Option<bool>,
    configurable: Option<bool>)

  /** A prototype was there before the object. */
  datatype Object = Object(props: map<Key, Descriptor>, proto: Option<nat>, extensible: bool)

  type Heap = seq<Object>

  predicate ValidHeap(h: Heap) {
    forall o :: 0 <= o < |h| && h[o].proto.Some? ==> h[o].proto.value < o
  }

  const UNDEFINED: Value := 0

  function Or<T>(x: Option<T>, y: T): T {
    if x.Some? then x.value else y
  }

  function Own(h: Heap, o: nat, k: Key): Option<Descriptor>
    requires o < |h|
  {
    if k in h[o].props then Some(h[o].props[k]) else None
  }

  // ---------------------------------------------------------------------
  // Ordinary objects
  // ---------------------------------------------------------------------

  predicate AsksAccessor(p: Partial) {
    p.getter.Some? || p.setter.Some?
  }

  predicate AsksData(p: Partial) {
    p.value.Some? || p.writable.Some?
  }

  /** A property that is not configurable admits few changes (section 10.1.6.3). */
  predicate Admits(d: Descriptor, p: Partial) {
    d.configurable ||
    (&& p.configurable != Some(true)
     && (p.enumerable.Some? ==> p.enumerable.value == d.enumerable)
     && (AsksAccessor(p) ==> d.Accessor?)
     && (AsksData(p) ==> d.Data?)
     && (d.Accessor? ==> Or(p.getter, d.getter) == d.getter && Or(p.setter, d.setter) == d.setter)
     && (d.Data? && !d.writable ==> p.writable != Some(true) && Or(p.value, d.value) == d.value))
  }

  function Changed(d: Descriptor, p: Partial): Descriptor {
    var enumerable, configurable := Or(p.enumerable, d.enumerable), Or(p.configurable, d.configurable);
    match d
    case Data(value, writable, _, _) =>
      if AsksAccessor(p) then Accessor(Or(p.getter, UNDEFINED), Or(p.setter, UNDEFINED), enumerable, configurable)
      else Data(Or(p.value, value), Or(p.writable, writable), enumerable, configurable)
    case Accessor(getter, setter, _, _) =>
      if AsksData(p) then Data(Or(p.value, UNDEFINED), Or(p.writable, false), enumerable, configurable)
      else Accessor(Or(p.getter, getter), Or(p.setter, setter), enumerable, configurable)
  }

  function Created(p: Partial): Descriptor {
    var enumerable, configurable := Or(p.enumerable, false), Or(p.configurable, false);
    if AsksAccessor(p) then Accessor(Or(p.getter, UNDEFINED), Or(p.setter, UNDEFINED), enumerable, configurable)
    else Data(Or(p.value, UNDEFINED), Or(p.writable, false), enumerable, configurable)
  }

  function Put(h: Heap, o: nat, k: Key, d: Descriptor): (h': Heap)
    requires o < |h|
    ensures |h'| == |h|
  {
    h[o := h[o].(props := h[o].props[k := d])]
  }

  /** None: the definition is refused. */
  function Define(h: Heap, o: nat, k: Key, p: Partial): (r: Option<Heap>)
    requires o < |h|
    ensures r.Some? ==> |r.value| == |h|
  {
    match Own(h, o, k)
    case None => if h[o].extensible then Some(Put(h, o, k, Created(p))) else None
    case Some(d) => if Admits(d, p) then Some(Put(h, o, k, Changed(d, p))) else None
  }

  function Whole(d: Descriptor): Partial {
    match d
    case Data(v, w, e, c) => Partial(Some(v), Some(w), None, None, Some(e), Some(c))
    case Accessor(g, s, e, c) => Partial(None, None, Some(g), Some(s), Some(e), Some(c))
  }

  /** Deleting is refused for a property that is not configurable, and then has no effect. */
  function Delete(h: Heap, o: nat, k: Key): (h': Heap)
    requires o < |h|
    ensures |h'| == |h|
  {
    if k in h[o].props && h[o].props[k].configurable then h[o := h[o].(props := h[o].props - {k})] else h
  }

  /** Assigning to a writable property found at an object or further up. */
  function Assign(h: Heap, o: nat, k: Key, v: Value): (r: Option<Heap>)
    requires o < |h|
    ensures r.Some? ==> |r.value| == |h|
  {
    if k in h[o].props then Define(h, o, k, Partial(Some(v), None, None, None, None, None))
    else Define(h, o, k, Whole(Data(v, true, true, true)))
  }

  // ---------------------------------------------------------------------
  // The registry
  // ---------------------------------------------------------------------

  datatype Match = Match(owner: nat, descriptor: Descriptor)

  /** What a restore function remembers. */
  datatype Closure = Closure(owner: nat, key: Key, found: Match)

  /** The replacements in force, in the order they were made, and every restore function handed out. */
  datatype Realm = Realm(heap: Heap, replaced: seq<Closure>, closures: seq<Closure>)

  datatype Result = Patched | Missing | Refused | Restored | Ignored

  /** The nearest property of that name on the prototype chain. */
  function Lookup(h: Heap, o: nat, k: Key): (m: Option<Match>)
    requires ValidHeap(h) && o < |h|
    decreases o
  {
    if k in h[o].props then Some(Match(o, h[o].props[k]))
    else if h[o].proto.None? then None
    else Lookup(h, h[o].proto.value, k)
  }

  predicate Concerns(c: Closure, o: nat, k: Key) {
    c.owner == o && c.key == k
  }

  predicate IsReplaced(replaced: seq<Closure>, o: nat, k: Key) {
    replaced != [] && (Concerns(Last(replaced), o, k) || IsReplaced(Init(replaced), o, k))
  }

  function Without(replaced: seq<Closure>, o: nat, k: Key): seq<Closure> {
    if replaced == [] then [] else
      Without(Init(replaced), o, k) +
        (if Concerns(Last(replaced), o, k) then [] else [Last(replaced)])
  }

  /** The heap after the property got its new value; None: that throws. */
  function Replace(h: Heap, o: nat, k: Key, m: Match, next: Value): (r: Option<Heap>)
    requires o < |h|
    ensures r.Some? ==> |r.value| == |h|
  {
    if m.descriptor.configurable then
      Define(h, o, k, Partial(Some(next), None, None, None, Some(true), Some(true)))
    else if m.descriptor.Data? && m.descriptor.writable then Assign(h, o, k, next)
    else None
  }

  /** "next" is the value the caller computes; None: computing it throws. */
  function Apply(r: Realm, o: nat, k: Key, next: Option<Value>): (res: (Realm, Result))
    requires ValidHeap(r.heap) && o < |r.heap|
  {
    if IsReplaced(r.replaced, o, k) then (r, Refused) else
      var found := Lookup(r.heap, o, k);
      if found.None? then (r, Missing)
      else if next.None? then (r, Refused)
      else
        var h := Replace(r.heap, o, k, found.value, next.value);
        if h.None? then (r, Refused) else
          var c := Closure(o, k, found.value);
          (Realm(h.value, r.replaced + [c], r.closures + [c]), Patched)
  }

  function Restore(r: Realm, c: Closure): (Realm, Result) {
    if c.owner >= |r.heap| || !IsReplaced(r.replaced, c.owner, c.key) then (r, Ignored) else
      var h := if c.found.owner == c.owner then Define(r.heap, c.owner, c.key, Whole(c.found.descriptor))
               else Some(Delete(r.heap, c.owner, c.key));
      if h.None? then (r, Refused)
      else (r.(heap := h.value, replaced := Without(r.replaced, c.owner, c.key)), Restored)
  }

  /** Every restore in force is tried, whatever the ones before it did. */
  function RestoreEach(r: Realm, todo: seq<Closure>): (Realm, bool)
    decreases |todo|
  {
    if todo == [] then (r, true) else
      var (r1, ok) := RestoreEach(r, Init(todo));
      var (r2, result) := Restore(r1, Last(todo));
      (r2, ok && result != Refused)
  }

  function RestoreAll(r: Realm): (Realm, bool) {
    RestoreEach(r, r.replaced)
  }

  datatype Call = ApplyPatch(owner: nat, key: Key, next: Option<Value>) | CallRestore(number: nat) | CallRestoreAll

  function Perform(r: Realm, call: Call): Realm
    requires ValidHeap(r.heap)
  {
    match call
    case ApplyPatch(o, k, next) => if o < |r.heap| then Apply(r, o, k, next).0 else r
    case CallRestore(i) => if i < |r.closures| then Restore(r, r.closures[i]).0 else r
    case CallRestoreAll => RestoreAll(r).0
  }

  // ---------------------------------------------------------------------
  // Invariants
  // ---------------------------------------------------------------------

  /** Only own properties change; chains and extensibility stay. */
  predicate SameShape(h: Heap, h0: Heap) {
    |h| == |h0| && forall o :: 0 <= o < |h| ==> h[o].proto == h0[o].proto && h[o].extensible == h0[o].extensible
  }

  /** A restore function remembers the original own descriptor, or that there was none. */
  predicate Captures(h0: Heap, c: Closure) {
    && c.owner < |h0|
    && (if c.found.owner == c.owner then Own(h0, c.owner, c.key) == Some(c.found.descriptor)
        else Own(h0, c.owner, c.key).None?)
  }

  /** A patched property can be turned back into the original. */
  predicate Reversible(now: Option<Descriptor>, original: Option<Descriptor>) {
    && now.Some?
    && (original.None? ==> now.value.configurable)
    && (original.Some? && original.value.configurable ==> now.value.configurable)
    && (original.Some? && !original.value.configurable ==>
          original.value.Data? && original.value.writable && now.value.Data? &&
          now.value == original.value.(value := now.value.value))
  }

  ghost predicate Kept(r: Realm, h0: Heap)
    requires |r.heap| == |h0|
  {
    forall o, k :: 0 <= o < |h0| ==>
      if IsReplaced(r.replaced, o, k) then Reversible(Own(r.heap, o, k), Own(h0, o, k))
      else Own(r.heap, o, k) == Own(h0, o, k)
  }

  ghost predicate Sound(r: Realm, h0: Heap) {
    && ValidHeap(h0) && SameShape(r.heap, h0)
    && (forall c :: c in r.closures ==> Captures(h0, c))
    && (forall c :: c in r.replaced ==> c in r.closures)
    && Kept(r, h0)
  }

  lemma ReplacedSnoc(replaced: seq<Closure>, c: Closure, o: nat, k: Key)
    ensures IsReplaced(replaced + [c], o, k) <==> Concerns(c, o, k) || IsReplaced(replaced, o, k)
  {
    InitOfSnoc(replaced, c);
  }

  lemma {:induction false} ReplacedWithout(replaced: seq<Closure>, o: nat, k: Key, o': nat, k': Key)
    ensures IsReplaced(Without(replaced, o, k), o', k') <==> IsReplaced(replaced, o', k') && !(o' == o && k' == k)
  {
    if replaced != [] {
      ReplacedWithout(Init(replaced), o, k, o', k');
      ReplacedSnoc(Without(Init(replaced), o, k), Last(replaced), o', k');
      assert Without(Init(replaced), o, k) + [] == Without(Init(replaced), o, k);
    }
  }

  lemma {:induction false} WithoutMember(replaced: seq<Closure>, o: nat, k: Key, c: Closure)
    requires c in Without(replaced, o, k)
    ensures c in replaced
  {
    InitLast(replaced);
    if !(c == Last(replaced)) {
      WithoutMember(Init(replaced), o, k, c);
    }
  }

  lemma {:induction false} MemberIsReplaced(replaced: seq<Closure>, c: Closure)
    requires c in replaced
    ensures IsReplaced(replaced, c.owner, c.key)
  {
    InitLast(replaced);
    if c != Last(replaced) {
      MemberIsReplaced(Init(replaced), c);
    }
  }

  lemma {:induction false} LookupFinds(h: Heap, o: nat, k: Key)
    requires ValidHeap(h) && o < |h|
    ensures var m := Lookup(h, o, k);
            m.Some? ==>
              && m.value.owner <= o && Own(h, m.value.owner, k) == Some(m.value.descriptor)
              && (m.value.owner == o <==> k in h[o].props)
    decreases o
  {
    if k !in h[o].props && h[o].proto.Some? {
      LookupFinds(h, h[o].proto.value, k);
    }
  }

  // ---------------------------------------------------------------------
  // One patch, one restore
  // ---------------------------------------------------------------------

  /** Two heaps differ in one own property at most. */
  ghost predicate OnlyProperty(h: Heap, h': Heap, o: nat, k: Key) {
    && SameShape(h', h) && o < |h|
    && (forall o', k' :: 0 <= o' < |h| && !(o' == o && k' == k) ==> Own(h', o', k') == Own(h, o', k'))
  }

  lemma PutIsLocal(h: Heap, o: nat, k: Key, d: Descriptor)
    requires o < |h|
    ensures OnlyProperty(h, Put(h, o, k, d), o, k) && Own(Put(h, o, k, d), o, k) == Some(d)
  {
  }

  lemma DefineIsLocal(h: Heap, o: nat, k: Key, p: Partial)
    requires o < |h| && Define(h, o, k, p).Some?
    ensures OnlyProperty(h, Define(h, o, k, p).value, o, k)
    ensures Own(Define(h, o, k, p).value, o, k) ==
            Some(if Own(h, o, k).None? then Created(p) else Changed(Own(h, o, k).value, p))
  {
    PutIsLocal(h, o, k, if Own(h, o, k).None? then Created(p) else Changed(Own(h, o, k).value, p));
  }

  /** A replacement holds the new value, touches nothing else, and can be turned back. */
  lemma ReplaceIsReversible(h: Heap, o: nat, k: Key, m: Match, next: Value)
    requires ValidHeap(h) && o < |h| && Lookup(h, o, k) == Some(m)
    requires Replace(h, o, k, m, next).Some?
    ensures var h' := Replace(h, o, k, m, next).value;
            && OnlyProperty(h, h', o, k)
            && Reversible(Own(h', o, k), Own(h, o, k))
            && Own(h', o, k).value.Data? && Own(h', o, k).value.value == next
  {
    LookupFinds(h, o, k);
    if m.descriptor.configurable {
      DefineIsLocal(h, o, k, Partial(Some(next), None, None, None, Some(true), Some(true)));
    } else if k in h[o].props {
      DefineIsLocal(h, o, k, Partial(Some(next), None, None, None, None, None));
    } else {
      DefineIsLocal(h, o, k, Whole(Data(next, true, true, true)));
    }
  }

  /** A patch takes effect exactly when the property is there, may be replaced, and there is room for it. */
  lemma PatchesIff(r: Realm, o: nat, k: Key, next: Value)
    requires ValidHeap(r.heap) && o < |r.heap| && !IsReplaced(r.replaced, o, k)
    ensures Apply(r, o, k, Some(next)).1 == Patched <==>
              var m := Lookup(r.heap, o, k);
              && m.Some?
              && (m.value.descriptor.configurable || (m.value.descriptor.Data? && m.value.descriptor.writable))
              && (m.value.owner == o || r.heap[o].extensible)
  {
    LookupFinds(r.heap, o, k);
  }

  /** Restoring succeeds on a property still as the registry left it, and gives back the original. */
  lemma RestoreGivesBack(h: Heap, h0: Heap, c: Closure)
    requires SameShape(h, h0) && Captures(h0, c)
    requires Reversible(Own(h, c.owner, c.key), Own(h0, c.owner, c.key))
    ensures var h' := if c.found.owner == c.owner then Define(h, c.owner, c.key, Whole(c.found.descriptor))
                      else Some(Delete(h, c.owner, c.key));
            && h'.Some? && OnlyProperty(h, h'.value, c.owner, c.key)
            && Own(h'.value, c.owner, c.key) == Own(h0, c.owner, c.key)
  {
    if c.found.owner == c.owner {
      var now := Own(h, c.owner, c.key).value;
      assert Admits(now, Whole(c.found.descriptor));
      assert Changed(now, Whole(c.found.descriptor)) == c.found.descriptor;
      DefineIsLocal(h, c.owner, c.key, Whole(c.found.descriptor));
    }
  }

  // ---------------------------------------------------------------------
  // Every call keeps the invariants
  // ---------------------------------------------------------------------

  lemma KeptElsewhere(r: Realm, r': Realm, h0: Heap, o: nat, k: Key)
    requires |r.heap| == |h0| && Kept(r, h0) && OnlyProperty(r.heap, r'.heap, o, k)
    requires forall o', k' :: !(o' == o && k' == k) ==> (IsReplaced(r'.replaced, o', k') <==> IsReplaced(r.replaced, o', k'))
    requires if IsReplaced(r'.replaced, o, k) then Reversible(Own(r'.heap, o, k), Own(h0, o, k))
             else Own(r'.heap, o, k) == Own(h0, o, k)
    ensures Kept(r', h0)
  {
    forall o', k' | 0 <= o' < |h0|
      ensures if IsReplaced(r'.replaced, o', k') then Reversible(Own(r'.heap, o', k'), Own(h0, o', k'))
              else Own(r'.heap, o', k') == Own(h0, o', k')
    {
      if !(o' == o && k' == k) {
        assert IsReplaced(r'.replaced, o', k') <==> IsReplaced(r.replaced, o', k');
        assert Own(r'.heap, o', k') == Own(r.heap, o', k');
      }
    }
  }

  lemma {:induction false} ApplyKeeps(r: Realm, h0: Heap, o: nat, k: Key, next: Option<Value>)
    requires Sound(r, h0) && ValidHeap(r.heap) && o < |r.heap|
    ensures Sound(Apply(r, o, k, next).0, h0)
  {
    var (r', result) := Apply(r, o, k, next);
    if result == Patched {
      var m := Lookup(r.heap, o, k).value;
      var c := Closure(o, k, m);
      LookupFinds(r.heap, o, k);
      ReplaceIsReversible(r.heap, o, k, m, next.value);
      assert Own(r.heap, o, k) == Own(h0, o, k);
      assert Captures(h0, c);
      hide Lookup, Replace, Reversible, Own;
      forall o', k' ensures IsReplaced(r'.replaced, o', k') <==> Concerns(c, o', k') || IsReplaced(r.replaced, o', k') {
        ReplacedSnoc(r.replaced, c, o', k');
      }
      KeptElsewhere(r, r', h0, o, k);
    }
  }

  lemma RestoreKeeps(r: Realm, h0: Heap, c: Closure)
    requires Sound(r, h0) && c in r.closures
    ensures var (r', result) := Restore(r, c);
            && Sound(r', h0) && result != Refused && r'.closures == r.closures
            && r'.replaced == if IsReplaced(r.replaced, c.owner, c.key) then Without(r.replaced, c.owner, c.key)
                              else r.replaced
  {
    if IsReplaced(r.replaced, c.owner, c.key) {
      RestoreGivesBack(r.heap, h0, c);
      var (r', _) := Restore(r, c);
      forall o', k' ensures IsReplaced(r'.replaced, o', k') <==> IsReplaced(r.replaced, o', k') && !(o' == c.owner && k' == c.key) {
        ReplacedWithout(r.replaced, c.owner, c.key, o', k');
      }
      forall x | x in r'.replaced ensures x in r.replaced { WithoutMember(r.replaced, c.owner, c.key, x); }
      KeptElsewhere(r, r', h0, c.owner, c.key);
    }
  }

  lemma {:induction false} RestoreEachKeeps(r: Realm, h0: Heap, todo: seq<Closure>)
    requires Sound(r, h0) && forall c :: c in todo ==> c in r.closures
    ensures var (r', ok) := RestoreEach(r, todo);
            && Sound(r', h0) && ok && r'.closures == r.closures
            && forall o, k :: IsReplaced(r'.replaced, o, k) <==> IsReplaced(r.replaced, o, k) && !IsReplaced(todo, o, k)
    decreases |todo|
  {
    if todo != [] {
      InitLast(todo);
      RestoreEachKeeps(r, h0, Init(todo));
      var (r1, _) := RestoreEach(r, Init(todo));
      var c := Last(todo);
      RestoreKeeps(r1, h0, c);
      var (r2, _) := Restore(r1, c);
      forall o, k
        ensures IsReplaced(r2.replaced, o, k) <==> IsReplaced(r.replaced, o, k) && !IsReplaced(todo, o, k)
      {
        ReplacedWithout(r1.replaced, c.owner, c.key, o, k);
      }
    }
  }

  lemma RestoreAllEmpties(r: Realm, h0: Heap)
    requires Sound(r, h0)
    ensures var (r', ok) := RestoreAll(r); ok && r'.replaced == [] && r'.heap == h0 && Sound(r', h0)
  {
    RestoreEachKeeps(r, h0, r.replaced);
    var (r', _) := RestoreAll(r);
    if r'.replaced != [] {
      var c := Last(r'.replaced);
      MemberIsReplaced(r'.replaced, c);
    }
    NothingReplacedIsOriginal(r', h0);
  }

  /** With nothing replaced, the heap is the one everything started from. */
  lemma NothingReplacedIsOriginal(r: Realm, h0: Heap)
    requires Sound(r, h0) && r.replaced == []
    ensures r.heap == h0
  {
    forall o | 0 <= o < |h0| ensures r.heap[o] == h0[o] {
      forall k ensures k in r.heap[o].props <==> k in h0[o].props {
        assert Own(r.heap, o, k) == Own(h0, o, k);
      }
      forall k | k in h0[o].props ensures r.heap[o].props[k] == h0[o].props[k] {
        assert Own(r.heap, o, k) == Own(h0, o, k);
      }
      assert r.heap[o].props == h0[o].props;
    }
  }

  lemma PerformKeeps(r: Realm, h0: Heap, call: Call)
    requires Sound(r, h0) && ValidHeap(r.heap)
    ensures Sound(Perform(r, call), h0) && ValidHeap(Perform(r, call).heap)
  {
    match call
    case ApplyPatch(o, k, next) => if o < |r.heap| { ApplyKeeps(r, h0, o, k, next); }
    case CallRestore(i) => if i < |r.closures| { RestoreKeeps(r, h0, r.closures[i]); }
    case CallRestoreAll => RestoreAllEmpties(r, h0);
  }

  // ---------------------------------------------------------------------
  // Over every sequence of calls
  // ---------------------------------------------------------------------

  ghost function Run(h0: Heap, calls: seq<Call>): (r: Realm)
    requires ValidHeap(h0)
    ensures Sound(r, h0) && ValidHeap(r.heap)
  {
    if calls == [] then Realm(h0, [], []) else
      var r := Run(h0, Init(calls));
      PerformKeeps(r, h0, Last(calls));
      Perform(r, Last(calls))
  }

  /** Whatever is not replaced is as it was, present with its own descriptor or absent. */
  lemma UnreplacedIsOriginal(h0: Heap, calls: seq<Call>, o: nat, k: Key)
    requires ValidHeap(h0) && o < |h0| && !IsReplaced(Run(h0, calls).replaced, o, k)
    ensures Own(Run(h0, calls).heap, o, k) == Own(h0, o, k)
  {
    assert Kept(Run(h0, calls), h0);
  }

  /** Every restore function ever handed out, used or not, remembers the original. */
  lemma ClosuresRememberOriginal(h0: Heap, calls: seq<Call>, i: nat)
    requires ValidHeap(h0) && i < |Run(h0, calls).closures|
    ensures Captures(h0, Run(h0, calls).closures[i])
  {
    var r := Run(h0, calls);
    assert r.closures[i] in r.closures;
  }

  /** Restoring everything never fails, leaves nothing replaced, and brings every object back. */
  lemma RestoreAllBringsBack(h0: Heap, calls: seq<Call>)
    requires ValidHeap(h0)
    ensures var (r, ok) := RestoreAll(Run(h0, calls)); ok && r.replaced == [] && r.heap == h0
  {
    RestoreAllEmpties(Run(h0, calls), h0);
  }

  // ---------------------------------------------------------------------
  // Objects somebody else froze
  // ---------------------------------------------------------------------

  /** The platform lets the property be put back, or deleted, whatever became of the object meanwhile. */
  predicate MayTurnBack(h: Heap, c: Closure)
    requires c.owner < |h|
  {
    match Own(h, c.owner, c.key)
    case None => c.found.owner == c.owner ==> h[c.owner].extensible
    case Some(now) =>
      if c.found.owner == c.owner then Admits(now, Whole(c.found.descriptor)) else now.configurable
  }

  lemma WholeIsExact(d: Descriptor, now: Descriptor)
    ensures Changed(now, Whole(d)) == d && Created(Whole(d)) == d && Admits(d, Whole(d))
  {
  }

  lemma DefinedWhole(h: Heap, o: nat, k: Key, d: Descriptor)
    requires o < |h|
    ensures var h' := Define(h, o, k, Whole(d));
            && (h'.Some? ==> Own(h'.value, o, k) == Some(d))
            && (h'.None? ==> Own(h, o, k) != Some(d))
  {
    WholeIsExact(d, if Own(h, o, k).Some? then Own(h, o, k).value else d);
    hide Changed, Created, Admits, Whole;
  }

  lemma Deleted(h: Heap, o: nat, k: Key)
    requires o < |h|
    ensures Own(Delete(h, o, k), o, k) == if Own(h, o, k).Some? && Own(h, o, k).value.configurable then None else Own(h, o, k)
  {
  }

  /**
   Whatever somebody did to the objects meanwhile: a restore in force brings the original
   property, or its absence, back exactly when the platform admits that; and it throws, and
   stays in force, exactly when the original was the object's own and is not admitted.
   */
  lemma RestoresIff(r: Realm, h0: Heap, c: Closure)
    requires c.owner < |r.heap| && IsReplaced(r.replaced, c.owner, c.key) && Captures(h0, c)
    ensures var (r', result) := Restore(r, c);
            && |r'.heap| == |r.heap|
            && (Own(r'.heap, c.owner, c.key) == Own(h0, c.owner, c.key) <==> MayTurnBack(r.heap, c))
            && (result == Refused <==> c.found.owner == c.owner && !MayTurnBack(r.heap, c))
            && (IsReplaced(r'.replaced, c.owner, c.key) <==> result == Refused)
  {
    ReplacedWithout(r.replaced, c.owner, c.key, c.owner, c.key);
    hide Changed, Created, Admits, Whole, Delete, Own, IsReplaced, Without;
    if c.found.owner == c.owner {
      DefinedWhole(r.heap, c.owner, c.key, c.found.descriptor);
    } else {
      Deleted(r.heap, c.owner, c.key);
    }
  }

  /** What was replaced on the object itself cannot be put back: that throws, and it stays registered. */
  lemma FrozenStaysReplaced(r: Realm, c: Closure)
    requires c.owner < |r.heap| && IsReplaced(r.replaced, c.owner, c.key)
    requires c.found.owner == c.owner && c.found.descriptor.configurable
    requires Own(r.heap, c.owner, c.key).Some? && !Own(r.heap, c.owner, c.key).value.configurable
    ensures Restore(r, c) == (r, Refused)
  {
  }

  /** What shadows an inherited property cannot be deleted: that is overlooked, and the registry forgets it. */
  lemma FrozenShadowIsForgotten(r: Realm, c: Closure)
    requires c.owner < |r.heap| && IsReplaced(r.replaced, c.owner, c.key) && c.found.owner != c.owner
    requires Own(r.heap, c.owner, c.key).Some? && !Own(r.heap, c.owner, c.key).value.configurable
    ensures var (r', result) := Restore(r, c);
            && result == Restored && !IsReplaced(r'.replaced, c.owner, c.key)
            && Own(r'.heap, c.owner, c.key) == Own(r.heap, c.owner, c.key)
  {
    ReplacedWithout(r.replaced, c.owner, c.key, c.owner, c.key);
  }

  // ---------------------------------------------------------------------
  // The object
  // ---------------------------------------------------------------------

  class PatchesRegistry {
    var heap: Heap
    var replacements: seq<Closure>
    var closures: seq<Closure>

    ghost function Model(): Realm
      reads this
    {
      Realm(heap, replacements, closures)
    }

    constructor (heap: Heap)
      ensures Model() == Realm(heap, [], [])
    {
      this.heap, replacements, closures := heap, [], [];
    }

    /** Walk down the prototype chain to the first own property of that name. */
    method GetDeepPropertyDescriptor(owner: nat, key: Key) returns (found: Option<Match>)
      requires ValidHeap(heap) && owner < |heap|
      ensures found == Lookup(heap, owner, key)
    {
      var currentOwner: Option<nat> := Some(owner);
      while currentOwner.Some?
        invariant currentOwner.Some? ==> currentOwner.value < |heap|
        invariant Lookup(heap, owner, key) ==
                  if currentOwner.Some? then Lookup(heap, currentOwner.value, key) else None
        decreases if currentOwner.Some? then currentOwner.value + 1 else 0
      {
        var current := heap[currentOwner.value];
        if key in current.props {
          return Some(Match(currentOwner.value, current.props[key]));
        }
        currentOwner := current.proto;
      }
      return None;
    }

    method HasReplacement(owner: nat, key: Key) returns (has: bool)
      ensures has == IsReplaced(replacements, owner, key)
    {
      has := false;
      for i := 0 to |replacements|
        invariant has == IsReplaced(replacements[..i], owner, key)
      {
        ReplacedSnoc(replacements[..i], replacements[i], owner, key);
        assert replacements[..i + 1] == replacements[..i] + [replacements[i]];
        if replacements[i].owner == owner && replacements[i].key == key {
          has := true;
        }
      }
      assert replacements[..|replacements|] == replacements;
    }

    method ApplyPatch(owner: nat, key: Key, next: Option<Value>) returns (result: Result)
      requires ValidHeap(heap) && owner < |heap|
      modifies this
      ensures (Model(), result) == Apply(old(Model()), owner, key, next)
    {
      var replaced := HasReplacement(owner, key);
      if replaced {
        return Refused;
      }
      var found := GetDeepPropertyDescriptor(owner, key);
      if found.None? {
        return Missing;
      }
      if next.None? {
        return Refused;
      }
      var patched := Replace(heap, owner, key, found.value, next.value);
      if patched.None? {
        return Refused;
      }
      heap := patched.value;
      var restorePatch := Closure(owner, key, found.value);
      replacements := replacements + [restorePatch];
      closures := closures + [restorePatch];
      return Patched;
    }

    /** Take a replacement off the list. */
    method Forget(owner: nat, key: Key)
      modifies this`replacements
      ensures replacements == Without(old(replacements), owner, key)
    {
      var kept := [];
      for i := 0 to |replacements|
        invariant kept == Without(replacements[..i], owner, key)
      {
        assert Init(replacements[..i + 1]) == replacements[..i];
        if !(replacements[i].owner == owner && replacements[i].key == key) {
          kept := kept + [replacements[i]];
        }
      }
      assert replacements[..|replacements|] == replacements;
      replacements := kept;
    }

    method RestorePatch(c: Closure) returns (result: Result)
      modifies this
      ensures (Model(), result) == Restore(old(Model()), c)
    {
      if c.owner >= |heap| {
        return Ignored;
      }
      var replaced := HasReplacement(c.owner, c.key);
      if !replaced {
        return Ignored;
      }
      if c.found.owner == c.owner {
        var restored := Define(heap, c.owner, c.key, Whole(c.found.descriptor));
        if restored.None? {
          return Refused;
        }
        heap := restored.value;
      } else {
        heap := Delete(heap, c.owner, c.key);
      }
      Forget(c.owner, c.key);
      return Restored;
    }

    /** The errors of single restores are collected; they stop nothing. */
    method RestoreAllPatches() returns (ok: bool)
      modifies this
      ensures (Model(), ok) == RestoreAll(old(Model()))
    {
      ok := true;
      ghost var r := Model();
      var todo := replacements;
      for i := 0 to |todo|
        invariant (Model(), ok) == RestoreEach(r, todo[..i])
      {
        assert Init(todo[..i + 1]) == todo[..i];
        var result := RestorePatch(todo[i]);
        ok := ok && result != Refused;
      }
      assert todo[..|todo|] == todo;
    }
  }

  /** Any calls on the object, and then everything restored: the objects are the original ones. */
  method Live(h0: Heap, calls: seq<Call>) returns (registry: PatchesRegistry, ok: bool)
    requires ValidHeap(h0)
    ensures ok && registry.heap == h0 && registry.replacements == []
  {
    registry := new PatchesRegistry(h0);
    for i := 0 to |calls|
      invariant fresh(registry) && registry.Model() == Run(h0, calls[..i])
    {
      assert Init(calls[..i + 1]) == calls[..i];
      match calls[i] {
        case ApplyPatch(o, k, next) =>
          if o < |registry.heap| { var _ := registry.ApplyPatch(o, k, next); }
        case CallRestore(n) =>
          if n < |registry.closures| { var _ := registry.RestorePatch(registry.closures[n]); }
        case CallRestoreAll => var _ := registry.RestoreAllPatches();
      }
    }
    RestoreAllBringsBack(h0, calls[..|calls|]);
    ok := registry.RestoreAllPatches();
  }
}
