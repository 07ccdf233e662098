/** What a call on the patches registry comes to, after any calls before it. */
module PatchesCalls {
  import opened Prelude
  import opened Patches

  /** The property that a patch of an object would replace: found on its chain, replaceable, with room for it. */
  predicate Patchable(h: Heap, o: nat, k: Key)
    requires ValidHeap(h) && o < |h|
  {
    var m := Lookup(h, o, k);
    && m.Some?
    && (m.value.descriptor.configurable || (m.value.descriptor.Data? && m.value.descriptor.writable))
    && (m.value.owner == o || h[o].extensible)
  }

  /** What a patch answers: missing only if there is no such property, refused if it is replaced already, throws, or cannot be. */
  lemma {:induction false} PatchAnswers(r: Realm, o: nat, k: Key, next: Option<Value>)
    requires ValidHeap(r.heap) && o < |r.heap|
    ensures var result := Apply(r, o, k, next).1;
            && (result == Missing <==> !IsReplaced(r.replaced, o, k) && Lookup(r.heap, o, k).None?)
            && (result == Patched <==> !IsReplaced(r.replaced, o, k) && next.Some? && Patchable(r.heap, o, k))
            && (result == Missing || result == Patched || result == Refused)
            && (result != Patched ==> Apply(r, o, k, next).0 == r)
  {
    if !IsReplaced(r.replaced, o, k) && next.Some? { PatchesIff(r, o, k, next.value); }
    hide Replace;
  }

  lemma {:induction false} AfterIsPerform(h0: Heap, calls: seq<Call>, call: Call)
    requires ValidHeap(h0)
    ensures Run(h0, calls + [call]) == Perform(Run(h0, calls), call)
    ensures |Run(h0, calls).heap| == |h0|
  {
    InitOfSnoc(calls, call);
  }

  /**
   Over any calls: a patch of a replaceable property that is not replaced yet takes effect; the
   object then has the value as its own, and it is enumerable and configurable if it was configurable
   or inherited; any other patch changes nothing.
   */
  lemma {:induction false} PatchTakesEffect(h0: Heap, calls: seq<Call>, o: nat, k: Key, next: Option<Value>)
    requires ValidHeap(h0) && o < |h0|
    ensures var r, r' := Run(h0, calls), Run(h0, calls + [ApplyPatch(o, k, next)]);
            if next.Some? && !IsReplaced(r.replaced, o, k) && Patchable(r.heap, o, k) then
              && IsReplaced(r'.replaced, o, k) && |r'.closures| == |r.closures| + 1
              && Own(r'.heap, o, k).Some? && Own(r'.heap, o, k).value.Data? && Own(r'.heap, o, k).value.value == next.value
              && var found := Lookup(r.heap, o, k).value;
                 (found.descriptor.configurable || found.owner != o ==>
                    Own(r'.heap, o, k).value.enumerable && Own(r'.heap, o, k).value.configurable)
            else r' == r
  {
    var r := Run(h0, calls);
    AfterIsPerform(h0, calls, ApplyPatch(o, k, next));
    PatchAnswers(r, o, k, next);
    if next.Some? && !IsReplaced(r.replaced, o, k) && Patchable(r.heap, o, k) {
      var m := Lookup(r.heap, o, k).value;
      LookupFinds(r.heap, o, k);
      ReplaceIsReversible(r.heap, o, k, m, next.value);
      if m.descriptor.configurable || m.owner != o { ReplacedIsOpen(r.heap, o, k, m, next.value); }
      ReplacedSnoc(r.replaced, Closure(o, k, m), o, k);
      hide Replace, Lookup;
    }
  }

  lemma {:induction false} ReplacedIsOpen(h: Heap, o: nat, k: Key, m: Match, next: Value)
    requires ValidHeap(h) && o < |h| && Lookup(h, o, k) == Some(m) && Replace(h, o, k, m, next).Some?
    requires m.descriptor.configurable || m.owner != o
    ensures var d := Own(Replace(h, o, k, m, next).value, o, k);
            d.Some? && d.value.enumerable && d.value.configurable
  {
    LookupFinds(h, o, k);
    if m.descriptor.configurable {
      DefineIsLocal(h, o, k, Partial(Some(next), None, None, None, Some(true), Some(true)));
    } else {
      DefineIsLocal(h, o, k, Whole(Data(next, true, true, true)));
    }
  }

  /** Over any calls: calling a restore function ends its replacement, and the property is the original one. */
  lemma {:induction false} RestoreTakesEffect(h0: Heap, calls: seq<Call>, i: nat)
    requires ValidHeap(h0) && i < |Run(h0, calls).closures|
    ensures var c, r' := Run(h0, calls).closures[i], Run(h0, calls + [CallRestore(i)]);
            && c.owner < |h0| && |r'.heap| == |h0|
            && !IsReplaced(r'.replaced, c.owner, c.key) && Own(r'.heap, c.owner, c.key) == Own(h0, c.owner, c.key)
  {
    var r := Run(h0, calls);
    var c := r.closures[i];
    AfterIsPerform(h0, calls, CallRestore(i));
    ClosuresRememberOriginal(h0, calls, i);
    assert c in r.closures;
    RestoreKeeps(r, h0, c);
    ReplacedWithout(r.replaced, c.owner, c.key, c.owner, c.key);
    UnreplacedIsOriginal(h0, calls + [CallRestore(i)], c.owner, c.key);
  }

  /** And restoring everything ends all of them. */
  lemma {:induction false} RestoreAllTakesEffect(h0: Heap, calls: seq<Call>)
    requires ValidHeap(h0)
    ensures var r' := Run(h0, calls + [CallRestoreAll]); r'.replaced == [] && r'.heap == h0
  {
    AfterIsPerform(h0, calls, CallRestoreAll);
    RestoreAllEmpties(Run(h0, calls), h0);
  }

  // ---------------------------------------------------------------------
  // Restoring everything, whatever somebody did meanwhile
  // ---------------------------------------------------------------------

  predicate OfProperty(c: Closure, o: nat, k: Key) {
    c.owner == o && c.key == k
  }

  /** One replacement a property, of properties that are there to be restored. */
  predicate EachOnce(todo: seq<Closure>, size: nat) {
    && (forall i :: 0 <= i < |todo| ==> todo[i].owner < size)
    && forall i, j :: 0 <= i < j < |todo| ==> !OfProperty(todo[i], todo[j].owner, todo[j].key)
  }

  lemma {:induction false} EachKeepsSize(r: Realm, todo: seq<Closure>)
    ensures |RestoreEach(r, todo).0.heap| == |r.heap|
  {
    if todo != [] {
      EachKeepsSize(r, Init(todo));
      var r1, c := RestoreEach(r, Init(todo)).0, Last(todo);
      if c.found.owner == c.owner && c.owner < |r1.heap| && Define(r1.heap, c.owner, c.key, Whole(c.found.descriptor)).Some? {
        DefineIsLocal(r1.heap, c.owner, c.key, Whole(c.found.descriptor));
      }
    }
  }

  lemma {:induction false} OtherTurnsBack(h: Heap, h': Heap, o: nat, k: Key, d: Closure)
    requires OnlyProperty(h, h', o, k) && d.owner < |h| && !OfProperty(d, o, k)
    ensures Own(h', d.owner, d.key) == Own(h, d.owner, d.key) && (MayTurnBack(h', d) <==> MayTurnBack(h, d))
  {
  }

  /** A restore leaves other properties as they were, and as restorable. */
  lemma {:induction false} RestoreIsLocal(r: Realm, c: Closure, d: Closure)
    requires d.owner < |r.heap| && !OfProperty(d, c.owner, c.key)
    ensures var r' := Restore(r, c).0;
            && |r'.heap| == |r.heap|
            && Own(r'.heap, d.owner, d.key) == Own(r.heap, d.owner, d.key)
            && (MayTurnBack(r'.heap, d) <==> MayTurnBack(r.heap, d))
            && (IsReplaced(r'.replaced, d.owner, d.key) <==> IsReplaced(r.replaced, d.owner, d.key))
  {
    hide Define, Without, IsReplaced, Admits, Whole, MayTurnBack;
    if Restore(r, c).1 == Restored {
      ReplacedWithout(r.replaced, c.owner, c.key, d.owner, d.key);
      if c.found.owner == c.owner { DefineIsLocal(r.heap, c.owner, c.key, Whole(c.found.descriptor)); }
      OtherTurnsBack(r.heap, Restore(r, c).0.heap, c.owner, c.key, d);
    }
  }

  lemma {:induction false} OthersStay(r: Realm, todo: seq<Closure>, d: Closure)
    requires d.owner < |r.heap| && forall i :: 0 <= i < |todo| ==> !OfProperty(d, todo[i].owner, todo[i].key)
    ensures var r' := RestoreEach(r, todo).0;
            && |r'.heap| == |r.heap|
            && Own(r'.heap, d.owner, d.key) == Own(r.heap, d.owner, d.key)
            && (MayTurnBack(r'.heap, d) <==> MayTurnBack(r.heap, d))
            && (IsReplaced(r'.replaced, d.owner, d.key) <==> IsReplaced(r.replaced, d.owner, d.key))
  {
    if todo != [] {
      OthersStay(r, Init(todo), d);
      RestoreIsLocal(RestoreEach(r, Init(todo)).0, Last(todo), d);
      hide MayTurnBack, Own, IsReplaced, Restore;
    }
  }

  /** Each of them is tried, whatever became of the ones before it: it gives the original back if the platform lets it. */
  lemma {:induction false} EachIsTried(r: Realm, h0: Heap, todo: seq<Closure>, i: nat)
    requires EachOnce(todo, |r.heap|) && i < |todo|
    requires Captures(h0, todo[i]) && IsReplaced(r.replaced, todo[i].owner, todo[i].key)
    ensures var r', c := RestoreEach(r, todo).0, todo[i];
            && |r'.heap| == |r.heap|
            && (Own(r'.heap, c.owner, c.key) == Own(h0, c.owner, c.key) <==> MayTurnBack(r.heap, c))
            && (IsReplaced(r'.replaced, c.owner, c.key) <==> c.found.owner == c.owner && !MayTurnBack(r.heap, c))
  {
    var before, c := Init(todo), todo[i];
    var r1 := RestoreEach(r, before).0;
    EachKeepsSize(r, before);
    if i == |todo| - 1 {
      OthersStay(r, before, c);
      RestoresIff(r1, h0, c);
    } else {
      EachIsTried(r, h0, before, i);
      RestoreIsLocal(r1, Last(todo), c);
    }
    hide MayTurnBack, Own, IsReplaced, Restore;
  }

  /** And it succeeds exactly if no own property refuses its original. */
  lemma {:induction false} AllRestoredIff(r: Realm, h0: Heap, todo: seq<Closure>)
    requires EachOnce(todo, |r.heap|)
    requires forall i :: 0 <= i < |todo| ==> Captures(h0, todo[i]) && IsReplaced(r.replaced, todo[i].owner, todo[i].key)
    ensures RestoreEach(r, todo).1 <==>
            forall i :: 0 <= i < |todo| ==> todo[i].found.owner != todo[i].owner || MayTurnBack(r.heap, todo[i])
  {
    if todo != [] {
      var before, c := Init(todo), Last(todo);
      var r1 := RestoreEach(r, before).0;
      assert forall i :: 0 <= i < |before| ==> before[i] == todo[i];
      AllRestoredIff(r, h0, before);
      OthersStay(r, before, c);
      assert Captures(h0, todo[|todo| - 1]);
      RestoresIff(r1, h0, c);
      hide MayTurnBack, Own, IsReplaced, Restore;
    }
  }
}
