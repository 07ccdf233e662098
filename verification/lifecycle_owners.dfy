/**
 Who owns an interceptor from outside: exactly those who applied it without its setup
 throwing and have not disposed of it since, if it suits the environment.
 */
module LifecycleOwners {
  import opened Prelude
  import opened Lifecycle

  /** Of the owners outside, at most the one given changed, on the interceptor given. */
  ghost predicate SameDirect(w: World, w': World, id: nat, owner: Owner) {
    && |w'.nodes| == |w.nodes|
    && forall j, k :: 0 <= j < |w.nodes| && !(j == id && owner == Direct(k)) ==>
         (Direct(k) in w'.nodes[j].owners <==> Direct(k) in w.nodes[j].owners)
  }

  lemma DirectTwice(w: World, w': World, w'': World, id: nat, owner: Owner)
    requires SameDirect(w, w', id, owner) && SameDirect(w', w'', id, owner)
    ensures SameDirect(w, w'', id, owner)
  {
    forall j, k | 0 <= j < |w.nodes| && !(j == id && owner == Direct(k))
      ensures Direct(k) in w''.nodes[j].owners <==> Direct(k) in w.nodes[j].owners
    {
      assert Direct(k) in w'.nodes[j].owners <==> Direct(k) in w.nodes[j].owners;
    }
  }

  /** A parent's letting go or taking hold changes no owner outside, on whichever interceptor. */
  lemma ParentChangesNone(w: World, w': World, c: nat, p: nat, id: nat, owner: Owner)
    requires SameDirect(w, w', c, Parent(p))
    ensures SameDirect(w, w', id, owner)
  {
  }

  lemma {:induction false} DisposeDirect(w: World, id: nat, owner: Owner)
    requires id < |w.nodes|
    ensures SameDirect(w, Dispose(w, id, owner), id, owner)
    ensures owner !in Dispose(w, id, owner).nodes[id].owners
    decreases id, 2, 1, 0
  {
    var n := w.nodes[id];
    if owner in n.owners {
      var w1 := With(w, id, n.(owners := n.owners - {owner}));
      assert SameDirect(w, w1, id, owner);
      if n.owners - {owner} == {} {
        PopAllDirect(w1, id, id, owner);
        DirectTwice(w, w1, PopAll(w1, id), id, owner);
      }
    }
  }

  lemma {:induction false} PopAllDirect(w: World, id: nat, at: nat, owner: Owner)
    requires id < |w.nodes|
    ensures SameDirect(w, PopAll(w, id), at, owner)
    decreases id, 2, 0, |w.nodes[id].subscriptions|
  {
    if w.nodes[id].subscriptions != [] {
      var w1, move := Pop(w, id), Last(w.nodes[id].subscriptions);
      assert SameDirect(w, w1, at, owner);
      var w2 := RunUndo(w1, id, move);
      if move.Child? && move.id < id {
        DisposeDirect(w1, move.id, Parent(id));
        ParentChangesNone(w1, w2, move.id, id, at, owner);
      }
      PopAllDirect(w2, id, at, owner);
      DirectTwice(w, w1, w2, at, owner);
      DirectTwice(w, w2, PopAll(w2, id), at, owner);
    }
  }

  lemma {:induction false} ApplyDirect(plan: seq<Spec>, w: World, id: nat, owner: Owner, faults: Faults)
    requires |plan| == |w.nodes| && id < |w.nodes|
    ensures SameDirect(w, Apply(plan, w, id, owner, faults).0, id, owner)
    decreases id, 4, 0
  {
    var n := w.nodes[id];
    if !(owner in n.owners || (n.state != Active && !plan[id].suits)) {
      var w1 := With(w, id, n.(owners := n.owners + {owner}));
      assert SameDirect(w, w1, id, owner);
      if n.state != Active {
        ActivateDirect(plan, w1, id, owner, faults);
        DirectTwice(w, w1, Activate(plan, w1, id, owner, faults).0, id, owner);
      }
    }
  }

  lemma {:induction false} ActivateDirect(plan: seq<Spec>, w: World, id: nat, owner: Owner, faults: Faults)
    requires |plan| == |w.nodes| && id < |w.nodes|
    ensures SameDirect(w, Activate(plan, w, id, owner, faults).0, id, owner)
    decreases id, 3, |plan[id].moves| + 1
  {
    var (w2, threw) := Setup(plan, w, id, |plan[id].moves|, faults);
    SetupDirect(plan, w, id, |plan[id].moves|, id, owner, faults);
    if threw || faults(w2.clock) {
      DisposeDirect(Ticked(w2), id, owner);
      DirectTwice(w, Ticked(w2), Dispose(Ticked(w2), id, owner), id, owner);
    }
  }

  lemma {:induction false} SetupDirect(plan: seq<Spec>, w: World, id: nat, k: nat, at: nat, owner: Owner, faults: Faults)
    requires |plan| == |w.nodes| && id < |w.nodes| && k <= |plan[id].moves|
    ensures SameDirect(w, Setup(plan, w, id, k, faults).0, at, owner)
    ensures Setup(plan, w, id, k, faults).0.nodes[id].owners == w.nodes[id].owners
    decreases id, 3, k
  {
    if k > 0 {
      var (w1, threw) := Setup(plan, w, id, k - 1, faults);
      SetupDirect(plan, w, id, k - 1, at, owner, faults);
      if !threw {
        TakeDirect(plan, w1, id, plan[id].moves[k - 1], at, owner, faults);
        DirectTwice(w, w1, Take(plan, w1, id, plan[id].moves[k - 1], faults).0, at, owner);
      }
    }
  }

  lemma {:induction false} TakeDirect(plan: seq<Spec>, w: World, id: nat, move: Move, at: nat, owner: Owner, faults: Faults)
    requires |plan| == |w.nodes| && id < |w.nodes|
    ensures SameDirect(w, Take(plan, w, id, move, faults).0, at, owner)
    ensures Take(plan, w, id, move, faults).0.nodes[id].owners == w.nodes[id].owners
    decreases id, 1, 0
  {
    if !faults(w.clock) && move.Child? && move.id < id {
      var w1 := Apply(plan, Ticked(w), move.id, Parent(id), faults).0;
      ApplyDirect(plan, Ticked(w), move.id, Parent(id), faults);
      ParentChangesNone(Ticked(w), w1, move.id, id, at, owner);
    }
  }

  /** An apply from outside that does not throw makes the caller an owner, if the interceptor suits; one that throws does not. */
  lemma {:induction false} ApplyOwns(plan: seq<Spec>, w: World, id: nat, key: nat, faults: Faults)
    requires ValidPlan(plan) && Good(plan, w) && id < |plan|
    ensures var (w', threw) := Apply(plan, w, id, Direct(key), faults);
            Direct(key) in w'.nodes[id].owners <==>
              Direct(key) in w.nodes[id].owners || (plan[id].suits && !threw)
  {
    var n, owner := w.nodes[id], Direct(key);
    assert Settled(plan[id], n, id);
    if owner !in n.owners && plan[id].suits && n.state != Active {
      var w1 := With(w, id, n.(owners := n.owners + {owner}));
      SetupDirect(plan, w1, id, |plan[id].moves|, id, owner, faults);
      var (w2, threw) := Setup(plan, w1, id, |plan[id].moves|, faults);
      DisposeDirect(Ticked(w2), id, owner);
    }
  }

  // ---------------------------------------------------------------------
  // Setups that never throw
  // ---------------------------------------------------------------------

  ghost predicate NoFaults(faults: Faults) {
    forall n :: !faults(n)
  }

  lemma {:induction false} ApplyNeverThrows(plan: seq<Spec>, w: World, id: nat, owner: Owner, faults: Faults)
    requires |plan| == |w.nodes| && id < |w.nodes| && NoFaults(faults)
    ensures !Apply(plan, w, id, owner, faults).1
    decreases id, 4, 0
  {
    var n := w.nodes[id];
    SetupNeverThrows(plan, With(w, id, n.(owners := n.owners + {owner})), id, |plan[id].moves|, faults);
  }

  lemma {:induction false} SetupNeverThrows(plan: seq<Spec>, w: World, id: nat, k: nat, faults: Faults)
    requires |plan| == |w.nodes| && id < |w.nodes| && k <= |plan[id].moves| && NoFaults(faults)
    ensures !Setup(plan, w, id, k, faults).1
    decreases id, 3, k
  {
    if k > 0 {
      SetupNeverThrows(plan, w, id, k - 1, faults);
      var w1, move := Setup(plan, w, id, k - 1, faults).0, plan[id].moves[k - 1];
      if move.Child? && move.id < id { ApplyNeverThrows(plan, Ticked(w1), move.id, Parent(id), faults); }
    }
  }

  // ---------------------------------------------------------------------
  // Who holds an interceptor
  // ---------------------------------------------------------------------

  /** Somebody applied it without its setup throwing, and has not disposed of it since. */
  predicate Holds(plan: seq<Spec>, calls: seq<Call>, faults: Faults, id: nat, key: nat)
    requires ValidPlan(plan)
  {
    calls != [] &&
    ((Last(calls) == ApplyAs(id, key) && id < |plan| && !Throws(plan, Init(calls), faults, id, key)) ||
     (Last(calls) != DisposeAs(id, key) && Holds(plan, Init(calls), faults, id, key)))
  }

  /** An apply by that owner throws after those calls. */
  predicate Throws(plan: seq<Spec>, calls: seq<Call>, faults: Faults, id: nat, key: nat)
    requires ValidPlan(plan) && id < |plan|
  {
    Apply(plan, Run(plan, calls, faults), id, Direct(key), faults).1
  }

  /** Over any calls, wherever setups throw, those outside who own an interceptor that suits are exactly those who hold it. */
  lemma {:induction false} HeldByCallers(plan: seq<Spec>, calls: seq<Call>, faults: Faults, id: nat, key: nat)
    requires ValidPlan(plan) && id < |plan|
    ensures Direct(key) in Run(plan, calls, faults).nodes[id].owners <==> plan[id].suits && Holds(plan, calls, faults, id, key)
  {
    if calls != [] {
      var w, call := Run(plan, Init(calls), faults), Last(calls);
      HeldByCallers(plan, Init(calls), faults, id, key);
      RunIsGood(plan, Init(calls), faults);
      CallOwns(plan, w, call, id, key, faults);
    }
  }

  lemma {:induction false} CallOwns(plan: seq<Spec>, w: World, call: Call, id: nat, key: nat, faults: Faults)
    requires ValidPlan(plan) && Good(plan, w) && id < |plan|
    ensures Direct(key) in Perform(plan, w, call, faults).nodes[id].owners <==>
              (call == ApplyAs(id, key) && plan[id].suits && !Apply(plan, w, id, Direct(key), faults).1) ||
              (call != DisposeAs(id, key) && Direct(key) in w.nodes[id].owners)
  {
    var w' := Perform(plan, w, call, faults);
    if call.id < |w.nodes| {
      match call
      case ApplyAs(c, k) =>
        ApplyDirect(plan, w, c, Direct(k), faults);
        if c == id && k == key {
          ApplyOwns(plan, w, id, key, faults);
        } else {
          assert Direct(key) in w'.nodes[id].owners <==> Direct(key) in w.nodes[id].owners;
        }
      case DisposeAs(c, k) =>
        DisposeDirect(w, c, Direct(k));
        assert !(c == id && k == key) ==> (Direct(key) in w'.nodes[id].owners <==> Direct(key) in w.nodes[id].owners);
    }
  }

  predicate HeldBy(plan: seq<Spec>, calls: seq<Call>, faults: Faults, id: nat, key: nat)
    requires ValidPlan(plan)
  {
    Holds(plan, calls, faults, id, key)
  }

  /** An active interceptor's setup applies that one. */
  predicate AppliedBy(plan: seq<Spec>, w: World, id: nat, p: nat)
    requires |plan| == |w.nodes|
  {
    p < |plan| && w.nodes[p].state == Active && Child(id) in plan[p].moves
  }

  /** And so an interceptor that suits is active exactly while somebody holds it, or an active one applied it. */
  lemma {:induction false} ActiveWhileHeld(plan: seq<Spec>, calls: seq<Call>, faults: Faults, id: nat)
    requires ValidPlan(plan) && id < |plan|
    ensures var w := Run(plan, calls, faults);
            w.nodes[id].state == Active <==>
              plan[id].suits && ((exists key :: HeldBy(plan, calls, faults, id, key)) || (exists p :: AppliedBy(plan, w, id, p)))
  {
    var w := Run(plan, calls, faults);
    RunIsGood(plan, calls, faults);
    var n := w.nodes[id];
    assert Settled(plan[id], n, id);
    forall key ensures Direct(key) in n.owners <==> plan[id].suits && HeldBy(plan, calls, faults, id, key) {
      HeldByCallers(plan, calls, faults, id, key);
    }
    forall p | 0 <= p < |plan| ensures Parent(p) in n.owners <==> w.nodes[p].state == Active && Child(id) in plan[p].moves && plan[id].suits {
      OwnedByActiveParents(plan, calls, faults, id, p);
    }
    if n.state == Active {
      var o :| o in n.owners;
      ParentsExist(plan, calls, faults, id, o);
      match o
      case Direct(key) => assert HeldBy(plan, calls, faults, id, key);
      case Parent(p) => assert AppliedBy(plan, w, id, p);
    } else {
      assert forall key :: HeldBy(plan, calls, faults, id, key) && plan[id].suits ==> Direct(key) in n.owners;
      assert forall p :: AppliedBy(plan, w, id, p) && plan[id].suits ==> Parent(p) in n.owners;
    }
  }

  /** An owner that is an interceptor is one of the plan's. */
  lemma {:induction false} ParentsExist(plan: seq<Spec>, calls: seq<Call>, faults: Faults, id: nat, o: Owner)
    requires ValidPlan(plan) && id < |plan| && o in Run(plan, calls, faults).nodes[id].owners
    ensures o.Parent? ==> o.id < |plan|
  {
    if calls != [] {
      var w, call := Run(plan, Init(calls), faults), Last(calls);
      if o in w.nodes[id].owners {
        ParentsExist(plan, Init(calls), faults, id, o);
      } else if call.id < |w.nodes| {
        match call
        case ApplyAs(c, k) => ApplyAddsKnown(plan, w, c, Direct(k), faults, id, o);
        case DisposeAs(c, k) => DisposeAddsNone(w, c, Direct(k), id, o);
      }
    }
  }

  lemma {:induction false} DisposeAddsNone(w: World, id: nat, owner: Owner, j: nat, o: Owner)
    requires id < |w.nodes| && j < |w.nodes| && o in Dispose(w, id, owner).nodes[j].owners
    ensures o in w.nodes[j].owners
    decreases id, 2, 1, 0
  {
    var n := w.nodes[id];
    if owner in n.owners && n.owners - {owner} == {} {
      PopAllAddsNone(With(w, id, n.(owners := n.owners - {owner})), id, j, o);
    }
  }

  lemma {:induction false} PopAllAddsNone(w: World, id: nat, j: nat, o: Owner)
    requires id < |w.nodes| && j < |w.nodes| && o in PopAll(w, id).nodes[j].owners
    ensures o in w.nodes[j].owners
    decreases id, 2, 0, |w.nodes[id].subscriptions|
  {
    if w.nodes[id].subscriptions != [] {
      var w1, move := Pop(w, id), Last(w.nodes[id].subscriptions);
      PopAllAddsNone(RunUndo(w1, id, move), id, j, o);
      if move.Child? && move.id < id { DisposeAddsNone(w1, move.id, Parent(id), j, o); }
    }
  }

  lemma {:induction false} ApplyAddsKnown(plan: seq<Spec>, w: World, id: nat, owner: Owner, faults: Faults, j: nat, o: Owner)
    requires |plan| == |w.nodes| && id < |w.nodes| && j < |w.nodes|
    requires o in Apply(plan, w, id, owner, faults).0.nodes[j].owners && o !in w.nodes[j].owners
    ensures o == owner || (o.Parent? && o.id <= id)
    decreases id, 4, 0
  {
    var n := w.nodes[id];
    var w1 := With(w, id, n.(owners := n.owners + {owner}));
    if o !in w1.nodes[j].owners && n.state != Active {
      var (w2, threw) := Setup(plan, w1, id, |plan[id].moves|, faults);
      if threw || faults(w2.clock) { DisposeAddsNone(Ticked(w2), id, owner, j, o); }
      SetupAddsKnown(plan, w1, id, |plan[id].moves|, faults, j, o);
    }
  }

  lemma {:induction false} SetupAddsKnown(plan: seq<Spec>, w: World, id: nat, k: nat, faults: Faults, j: nat, o: Owner)
    requires |plan| == |w.nodes| && id < |w.nodes| && j < |w.nodes| && k <= |plan[id].moves|
    requires o in Setup(plan, w, id, k, faults).0.nodes[j].owners && o !in w.nodes[j].owners
    ensures o.Parent? && o.id <= id
    decreases id, 3, k
  {
    if k > 0 {
      var (w1, threw) := Setup(plan, w, id, k - 1, faults);
      if o in w1.nodes[j].owners {
        SetupAddsKnown(plan, w, id, k - 1, faults, j, o);
      } else {
        var move := plan[id].moves[k - 1];
        if move.Child? && move.id < id && !faults(w1.clock) {
          ApplyAddsKnown(plan, Ticked(w1), move.id, Parent(id), faults, j, o);
        }
      }
    }
  }
}
