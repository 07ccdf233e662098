/**
 Interceptors and their owners. An interceptor's setup patches things and applies
 other interceptors, created before it, with itself as their owner; what it did is
 undone, last first, when its last owner lets go, or when the setup throws.
 */
module Lifecycle {
  import opened Prelude

  /** Somebody outside, or an interceptor whose setup applied this one. */
  datatype Owner = Direct(key: nat) | Parent(id: nat)

  datatype ReadyState = Inactive | Active | Disposed

  /** One step of a setup; the subscription it pushes undoes it. */
  datatype Move = Patch(key: nat) | Child(id: nat)

  /** What an interceptor is: whether it suits the environment, and its setup. */
  datatype Spec = Spec(suits: bool, moves: seq<Move>)

  datatype Node = Node(owners: set<Owner>, state: ReadyState, subscriptions: seq<Move>)

  datatype Entry = Did(id: nat, move: Move) | Undid(id: nat, move: Move)

  datatype World = World(nodes: seq<Node>, log: seq<Entry>, clock: nat)

  /** Whether the setup step taken at a moment throws: any answers at all. */
  type Faults = nat -> bool

  /** An interceptor applies only ones created before it, each once. */
  predicate ValidPlan(plan: seq<Spec>) {
    forall id, i :: 0 <= id < |plan| && 0 <= i < |plan[id].moves| && plan[id].moves[i].Child? ==>
      && plan[id].moves[i].id < id
      && plan[id].moves[i] !in plan[id].moves[..i]
  }

  function Fresh(plan: seq<Spec>): World {
    World(seq(|plan|, _ => Node({}, Inactive, [])), [], 0)
  }

  function With(w: World, id: nat, n: Node): (w': World)
    requires id < |w.nodes|
    ensures |w'.nodes| == |w.nodes|
  {
    w.(nodes := w.nodes[id := n])
  }

  /** Only nodes up to the given one changed. */
  predicate Above(w: World, w': World, id: nat) {
    |w'.nodes| == |w.nodes| && forall j :: id < j < |w.nodes| ==> w'.nodes[j] == w.nodes[j]
  }

  function Push(w: World, id: nat, move: Move): (w': World)
    requires id < |w.nodes|
    ensures Above(w, w', id)
  {
    With(w, id, w.nodes[id].(subscriptions := w.nodes[id].subscriptions + [move])).(log := w.log + [Did(id, move)])
  }

  function Pop(w: World, id: nat): (w': World)
    requires id < |w.nodes| && w.nodes[id].subscriptions != []
    ensures Above(w, w', id)
  {
    var subs := w.nodes[id].subscriptions;
    With(w, id, w.nodes[id].(subscriptions := Init(subs))).(log := w.log + [Undid(id, Last(subs))])
  }

  function Dispose(w: World, id: nat, owner: Owner): (w': World)
    requires id < |w.nodes|
    ensures Above(w, w', id)
    decreases id, 2, 1, 0
  {
    var n := w.nodes[id];
    if owner !in n.owners then w else
      var w1 := With(w, id, n.(owners := n.owners - {owner}));
      if n.owners - {owner} != {} then w1 else
        var w2 := PopAll(w1, id);
        With(w2, id, w2.nodes[id].(state := Disposed))
  }

  /** The teardown loop: pop a subscription, run it, until there is none. */
  function PopAll(w: World, id: nat): (w': World)
    requires id < |w.nodes|
    ensures Above(w, w', id) && w'.nodes[id] == w.nodes[id].(subscriptions := [])
    decreases id, 2, 0, |w.nodes[id].subscriptions|
  {
    if w.nodes[id].subscriptions == [] then w else
      PopAll(RunUndo(Pop(w, id), id, Last(w.nodes[id].subscriptions)), id)
  }

  function RunUndo(w: World, id: nat, move: Move): (w': World)
    requires id < |w.nodes|
    ensures Above(w, w', id) && w'.nodes[id] == w.nodes[id]
    decreases id, 1, 0
  {
    if move.Child? && move.id < id then Dispose(w, move.id, Parent(id)) else w
  }

  /** The result says whether the call threw. */
  function Apply(plan: seq<Spec>, w: World, id: nat, owner: Owner, faults: Faults): (r: (World, bool))
    requires |plan| == |w.nodes| && id < |w.nodes|
    ensures Above(w, r.0, id)
    decreases id, 4, 0
  {
    var n := w.nodes[id];
    if owner in n.owners then (w, false)
    else if n.state != Active && !plan[id].suits then (w, false)
    else
      var w1 := With(w, id, n.(owners := n.owners + {owner}));
      if n.state == Active then (w1, false) else Activate(plan, w1, id, owner, faults)
  }

  /** The setup may throw at any step, or after the last one; what it registered is undone then. */
  function Activate(plan: seq<Spec>, w: World, id: nat, owner: Owner, faults: Faults): (r: (World, bool))
    requires |plan| == |w.nodes| && id < |w.nodes|
    ensures Above(w, r.0, id)
    decreases id, 3, |plan[id].moves| + 1
  {
    var (w2, threw) := Setup(plan, w, id, |plan[id].moves|, faults);
    if threw || faults(w2.clock) then (Dispose(Ticked(w2), id, owner), true)
    else (With(Ticked(w2), id, w2.nodes[id].(state := Active)), false)
  }

  function Ticked(w: World): World {
    w.(clock := w.clock + 1)
  }

  /** The first k steps of a setup. */
  function Setup(plan: seq<Spec>, w: World, id: nat, k: nat, faults: Faults): (r: (World, bool))
    requires |plan| == |w.nodes| && id < |w.nodes| && k <= |plan[id].moves|
    ensures Above(w, r.0, id)
    decreases id, 3, k
  {
    if k == 0 then (w, false) else
      var (w1, threw) := Setup(plan, w, id, k - 1, faults);
      if threw then (w1, true) else Take(plan, w1, id, plan[id].moves[k - 1], faults)
  }

  /** One step: do it, then register its undo. */
  function Take(plan: seq<Spec>, w: World, id: nat, move: Move, faults: Faults): (r: (World, bool))
    requires |plan| == |w.nodes| && id < |w.nodes|
    ensures Above(w, r.0, id)
    decreases id, 1, 0
  {
    if faults(w.clock) then (Ticked(w), true)
    else if move.Child? && move.id < id then
      var (w1, threw) := Apply(plan, Ticked(w), move.id, Parent(id), faults);
      if threw then (w1, true) else (Push(w1, id, move), false)
    else (Push(Ticked(w), id, move), false)
  }

  /** What somebody outside may call, on any interceptor, as any owner. */
  datatype Call = ApplyAs(id: nat, key: nat) | DisposeAs(id: nat, key: nat)

  function Perform(plan: seq<Spec>, w: World, call: Call, faults: Faults): (w': World)
    requires |plan| == |w.nodes|
    ensures |plan| == |w'.nodes|
  {
    if call.id >= |w.nodes| then w else
      match call
      case ApplyAs(id, key) => Apply(plan, w, id, Direct(key), faults).0
      case DisposeAs(id, key) => Dispose(w, id, Direct(key))
  }

  function Run(plan: seq<Spec>, calls: seq<Call>, faults: Faults): (w: World)
    ensures |plan| == |w.nodes|
  {
    if calls == [] then Fresh(plan) else Perform(plan, Run(plan, Init(calls), faults), Last(calls), faults)
  }

  // ---------------------------------------------------------------------
  // Invariants
  // ---------------------------------------------------------------------

  /** Active means owned and fully set up; otherwise nothing is registered. Owners were created later. */
  predicate Settled(spec: Spec, n: Node, id: nat) {
    && (n.state == Active <==> n.owners != {})
    && (n.state == Active ==> spec.suits && n.subscriptions == spec.moves)
    && (n.state != Active ==> n.subscriptions == [])
    && (forall o :: o in n.owners && o.Parent? ==> o.id > id)
  }

  predicate SettledBelow(plan: seq<Spec>, w: World, k: nat)
    requires |plan| == |w.nodes|
  {
    forall i :: 0 <= i < k && i < |w.nodes| ==> Settled(plan[i], w.nodes[i], i)
  }

  /** An interceptor is owned by the ones whose subscriptions would let go of it. */
  predicate Linked(plan: seq<Spec>, w: World, c: nat, p: nat)
    requires |plan| == |w.nodes| && c < |w.nodes| && p < |w.nodes|
  {
    Parent(p) in w.nodes[c].owners <==> Child(c) in w.nodes[p].subscriptions && plan[c].suits
  }

  predicate LinkedBelow(plan: seq<Spec>, w: World, k: nat)
    requires |plan| == |w.nodes|
  {
    forall c, p :: 0 <= c < k && c < p < |w.nodes| ==> Linked(plan, w, c, p)
  }

  /** All up to one interceptor are, but for the owner it is being given or deprived of. */
  predicate LinkedBut(plan: seq<Spec>, w: World, id: nat, owner: Owner)
    requires |plan| == |w.nodes|
  {
    forall c, p :: 0 <= c <= id && c < p < |w.nodes| && !(c == id && owner == Parent(p)) ==> Linked(plan, w, c, p)
  }

  /** No subscription of that owner concerns that interceptor. */
  predicate Unlisted(w: World, id: nat, owner: Owner) {
    owner.Parent? ==> id < owner.id < |w.nodes| && Child(id) !in w.nodes[owner.id].subscriptions
  }

  /** What an interceptor did and has not undone yet, by the log. */
  function Pending(log: seq<Entry>, id: nat): seq<Move> {
    if log == [] then [] else
      var before := Pending(Init(log), id);
      match Last(log)
      case Did(n, move) => if n == id then before + [move] else before
      case Undid(n, move) => if n == id && before != [] then Init(before) else before
  }

  /** Every undo is of the last thing done and not undone yet. */
  predicate LastInFirstOut(log: seq<Entry>) {
    log == [] ||
    (&& LastInFirstOut(Init(log))
     && (Last(log).Undid? ==>
           var before := Pending(Init(log), Last(log).id);
           before != [] && Last(before) == Last(log).move))
  }

  predicate Logged(w: World) {
    && LastInFirstOut(w.log)
    && forall i :: 0 <= i < |w.nodes| ==> Pending(w.log, i) == w.nodes[i].subscriptions
  }

  predicate Good(plan: seq<Spec>, w: World) {
    |plan| == |w.nodes| && SettledBelow(plan, w, |plan|) && LinkedBelow(plan, w, |plan|) && Logged(w)
  }

  /** A setup in progress, or being undone: a first part of its steps is registered. */
  predicate Underway(spec: Spec, n: Node) {
    n.state != Active && n.subscriptions <= spec.moves
  }

  // ---------------------------------------------------------------------
  // Every call keeps them
  // ---------------------------------------------------------------------

  lemma PushLogged(w: World, id: nat, move: Move)
    requires id < |w.nodes| && Logged(w)
    ensures Logged(Push(w, id, move))
  {
    InitOfSnoc(w.log, Did(id, move));
  }

  lemma PopLogged(w: World, id: nat)
    requires id < |w.nodes| && w.nodes[id].subscriptions != [] && Logged(w)
    ensures Logged(Pop(w, id))
  {
    InitOfSnoc(w.log, Undid(id, Last(w.nodes[id].subscriptions)));
  }

  /** Worlds with the same owners and subscriptions have the same links. */
  predicate SameLinks(w: World, w': World) {
    && |w'.nodes| == |w.nodes|
    && (forall i :: 0 <= i < |w.nodes| ==> w'.nodes[i].owners == w.nodes[i].owners)
    && (forall i :: 0 <= i < |w.nodes| ==> w'.nodes[i].subscriptions == w.nodes[i].subscriptions)
  }

  lemma LinksCarryOver(plan: seq<Spec>, w: World, w': World, id: nat, owner: Owner)
    requires |plan| == |w.nodes| && LinkedBut(plan, w, id, owner) && SameLinks(w, w')
    ensures LinkedBut(plan, w', id, owner)
  {
    forall c, p | 0 <= c <= id && c < p < |w.nodes| && !(c == id && owner == Parent(p)) ensures Linked(plan, w', c, p) {
      assert Linked(plan, w, c, p);
    }
  }

  /** Giving or taking one owner leaves the other links alone. */
  lemma OwnerChanges(plan: seq<Spec>, w: World, id: nat, owners: set<Owner>, owner: Owner)
    requires |plan| == |w.nodes| && id < |w.nodes| && LinkedBut(plan, w, id, owner)
    requires forall o :: o != owner ==> (o in owners <==> o in w.nodes[id].owners)
    ensures LinkedBut(plan, With(w, id, w.nodes[id].(owners := owners)), id, owner)
  {
    var w' := With(w, id, w.nodes[id].(owners := owners));
    forall c, p | 0 <= c <= id && c < p < |w.nodes| && !(c == id && owner == Parent(p)) ensures Linked(plan, w', c, p) {
      assert Linked(plan, w, c, p);
    }
  }

  lemma AllAreLinked(plan: seq<Spec>, w: World, id: nat, owner: Owner)
    requires |plan| == |w.nodes| && id < |w.nodes| && LinkedBut(plan, w, id, owner)
    requires Unlisted(w, id, owner) && owner !in w.nodes[id].owners
    ensures LinkedBelow(plan, w, id + 1)
  {
    forall c, p | 0 <= c < id + 1 && c < p < |w.nodes| ensures Linked(plan, w, c, p) {
    }
  }

  /** A step of a plan names its child once. */
  lemma MoveOnce(plan: seq<Spec>, id: nat, k: nat)
    requires ValidPlan(plan) && id < |plan| && k < |plan[id].moves| && plan[id].moves[k].Child?
    ensures plan[id].moves[k].id < id && plan[id].moves[k] !in plan[id].moves[..k]
  {
  }

  lemma {:induction false} DisposeKeeps(plan: seq<Spec>, w: World, id: nat, owner: Owner)
    requires ValidPlan(plan) && |plan| == |w.nodes| && id < |w.nodes|
    requires SettledBelow(plan, w, id) && LinkedBut(plan, w, id, owner) && Unlisted(w, id, owner) && Logged(w)
    requires Settled(plan[id], w.nodes[id], id) || (Underway(plan[id], w.nodes[id]) && w.nodes[id].owners == {owner})
    ensures var w' := Dispose(w, id, owner);
            && SettledBelow(plan, w', id + 1) && LinkedBelow(plan, w', id + 1) && Logged(w')
            && w'.nodes[id].owners == w.nodes[id].owners - {owner}
    decreases id, 2, 1, 0
  {
    var n := w.nodes[id];
    if owner in n.owners {
      var w1 := With(w, id, n.(owners := n.owners - {owner}));
      OwnerChanges(plan, w, id, n.owners - {owner}, owner);
      AllAreLinked(plan, w1, id, owner);
      assert Logged(w1);
      if n.owners - {owner} == {} {
        TeardownKeeps(plan, w1, id);
      }
    } else {
      AllAreLinked(plan, w, id, owner);
    }
  }

  lemma {:induction false} TeardownKeeps(plan: seq<Spec>, w: World, id: nat)
    requires ValidPlan(plan) && |plan| == |w.nodes| && id < |w.nodes|
    requires SettledBelow(plan, w, id) && LinkedBelow(plan, w, id + 1) && Logged(w)
    requires w.nodes[id].owners == {} && w.nodes[id].subscriptions <= plan[id].moves
    ensures var w2 := PopAll(w, id);
            var w' := With(w2, id, w2.nodes[id].(state := Disposed));
            SettledBelow(plan, w', id + 1) && LinkedBelow(plan, w', id + 1) && Logged(w')
    decreases id, 2, 0, |w.nodes[id].subscriptions| + 1
  {
    PopAllKeeps(plan, w, id);
    StateChanges(plan, PopAll(w, id), id, Disposed);
  }

  lemma StateChanges(plan: seq<Spec>, w: World, id: nat, state: ReadyState)
    requires |plan| == |w.nodes| && id < |w.nodes| && LinkedBelow(plan, w, id + 1)
    ensures LinkedBelow(plan, With(w, id, w.nodes[id].(state := state)), id + 1)
  {
    assert LinkedBut(plan, w, id, Direct(0));
    LinksCarryOver(plan, w, With(w, id, w.nodes[id].(state := state)), id, Direct(0));
  }

  lemma {:induction false} PopAllKeeps(plan: seq<Spec>, w: World, id: nat)
    requires ValidPlan(plan) && |plan| == |w.nodes| && id < |w.nodes|
    requires SettledBelow(plan, w, id) && LinkedBelow(plan, w, id + 1) && Logged(w)
    requires w.nodes[id].subscriptions <= plan[id].moves
    ensures var w' := PopAll(w, id);
            && SettledBelow(plan, w', id) && LinkedBelow(plan, w', id + 1) && Logged(w')
            && w'.nodes[id] == w.nodes[id].(subscriptions := [])
    decreases id, 2, 0, |w.nodes[id].subscriptions|
  {
    var subs := w.nodes[id].subscriptions;
    if subs != [] {
      PopKeeps(plan, w, id);
      PopAllKeeps(plan, RunUndo(Pop(w, id), id, Last(subs)), id);
    }
  }

  /** The links without the child that the last subscription is for. */
  lemma {:induction false} PopLinks(plan: seq<Spec>, w: World, id: nat)
    requires ValidPlan(plan) && |plan| == |w.nodes| && id < |w.nodes| && LinkedBelow(plan, w, id + 1)
    requires w.nodes[id].subscriptions <= plan[id].moves && w.nodes[id].subscriptions != []
    ensures var subs := w.nodes[id].subscriptions;
            && Last(subs) == plan[id].moves[|subs| - 1] && Init(subs) == plan[id].moves[..|subs| - 1]
            && forall c, p :: 0 <= c <= id && c < p < |w.nodes| && !(Last(subs) == Child(c) && p == id) ==>
                 Linked(plan, Pop(w, id), c, p)
  {
    var subs := w.nodes[id].subscriptions;
    InitLast(subs);
    forall c, p | 0 <= c <= id && c < p < |w.nodes| && !(Last(subs) == Child(c) && p == id)
      ensures Linked(plan, Pop(w, id), c, p)
    {
      assert Linked(plan, w, c, p);
    }
  }

  /** One turn of the teardown loop. */
  lemma {:induction false} PopKeeps(plan: seq<Spec>, w: World, id: nat)
    requires ValidPlan(plan) && |plan| == |w.nodes| && id < |w.nodes|
    requires SettledBelow(plan, w, id) && LinkedBelow(plan, w, id + 1) && Logged(w)
    requires w.nodes[id].subscriptions <= plan[id].moves && w.nodes[id].subscriptions != []
    ensures var w' := RunUndo(Pop(w, id), id, Last(w.nodes[id].subscriptions));
            && SettledBelow(plan, w', id) && LinkedBelow(plan, w', id + 1) && Logged(w')
    decreases id, 1, 0
  {
    var subs := w.nodes[id].subscriptions;
    var w1, move := Pop(w, id), Last(subs);
    PopLogged(w, id);
    PopLinks(plan, w, id);
    if move.Child? {
      MoveOnce(plan, id, |subs| - 1);
      DisposeKeeps(plan, w1, move.id, Parent(id));
      var w' := Dispose(w1, move.id, Parent(id));
      forall c, p | 0 <= c <= id && c < p < |w.nodes| ensures Linked(plan, w', c, p) {
        if c > move.id { assert Linked(plan, w1, c, p); }
      }
    }
  }

  lemma {:induction false} ApplyKeeps(plan: seq<Spec>, w: World, id: nat, owner: Owner, faults: Faults)
    requires ValidPlan(plan) && |plan| == |w.nodes| && id < |w.nodes|
    requires SettledBelow(plan, w, id + 1) && LinkedBelow(plan, w, id + 1) && Unlisted(w, id, owner) && Logged(w)
    ensures var (w', threw) := Apply(plan, w, id, owner, faults);
            && SettledBelow(plan, w', id + 1) && LinkedBut(plan, w', id, owner) && Logged(w')
            && (threw ==> w'.nodes[id].owners == w.nodes[id].owners - {owner})
            && (!threw ==> w'.nodes[id].owners == w.nodes[id].owners + (if plan[id].suits then {owner} else {}))
    decreases id, 4, 0
  {
    var n := w.nodes[id];
    if owner !in n.owners && (n.state == Active || plan[id].suits) {
      var w1 := With(w, id, n.(owners := n.owners + {owner}));
      OwnerChanges(plan, w, id, n.owners + {owner}, owner);
      if n.state != Active {
        ActivateKeeps(plan, w1, id, owner, faults);
      }
    }
  }

  /** The setup, and its rollback if it throws. */
  lemma {:induction false} ActivateKeeps(plan: seq<Spec>, w1: World, id: nat, owner: Owner, faults: Faults)
    requires ValidPlan(plan) && |plan| == |w1.nodes| && id < |w1.nodes| && plan[id].suits
    requires SettledBelow(plan, w1, id) && LinkedBut(plan, w1, id, owner) && Unlisted(w1, id, owner) && Logged(w1)
    requires w1.nodes[id].state != Active && w1.nodes[id].subscriptions == [] && w1.nodes[id].owners == {owner}
    ensures var (w', threw) := Activate(plan, w1, id, owner, faults);
            && SettledBelow(plan, w', id + 1) && LinkedBut(plan, w', id, owner) && Logged(w')
            && w'.nodes[id].owners == if threw then {} else {owner}
    decreases id, 3, |plan[id].moves| + 1
  {
    SetupKeeps(plan, w1, id, |plan[id].moves|, owner, faults);
    var (w2, threw) := Setup(plan, w1, id, |plan[id].moves|, faults);
    LinksCarryOver(plan, w2, Ticked(w2), id, owner);
    if threw || faults(w2.clock) {
      DisposeKeeps(plan, Ticked(w2), id, owner);
    } else {
      assert plan[id].moves[..|plan[id].moves|] == plan[id].moves;
      LinksCarryOver(plan, w2, Activate(plan, w1, id, owner, faults).0, id, owner);
    }
  }

  lemma {:induction false} SetupKeeps(plan: seq<Spec>, w: World, id: nat, k: nat, owner: Owner, faults: Faults)
    requires ValidPlan(plan) && |plan| == |w.nodes| && id < |w.nodes| && k <= |plan[id].moves|
    requires SettledBelow(plan, w, id) && LinkedBut(plan, w, id, owner) && Logged(w)
    requires w.nodes[id].state != Active && w.nodes[id].subscriptions == []
    ensures var (w', threw) := Setup(plan, w, id, k, faults);
            && SettledBelow(plan, w', id) && LinkedBut(plan, w', id, owner) && Logged(w')
            && w'.nodes[id].owners == w.nodes[id].owners
            && Underway(plan[id], w'.nodes[id])
            && (!threw ==> w'.nodes[id].subscriptions == plan[id].moves[..k])
    decreases id, 3, k
  {
    hide SettledBelow, LinkedBut, Logged;
    if k > 0 {
      SetupKeeps(plan, w, id, k - 1, owner, faults);
      var (w1, threw) := Setup(plan, w, id, k - 1, faults);
      if !threw {
        TakeKeeps(plan, w1, id, k - 1, owner, faults);
      }
    }
  }

  lemma {:induction false} TakeKeeps(plan: seq<Spec>, w: World, id: nat, k: nat, owner: Owner, faults: Faults)
    requires ValidPlan(plan) && |plan| == |w.nodes| && id < |w.nodes| && k < |plan[id].moves|
    requires SettledBelow(plan, w, id) && LinkedBut(plan, w, id, owner) && Logged(w)
    requires w.nodes[id].state != Active && w.nodes[id].subscriptions == plan[id].moves[..k]
    ensures var (w', threw) := Take(plan, w, id, plan[id].moves[k], faults);
            && SettledBelow(plan, w', id) && LinkedBut(plan, w', id, owner) && Logged(w')
            && w'.nodes[id].owners == w.nodes[id].owners
            && Underway(plan[id], w'.nodes[id])
            && (!threw ==> w'.nodes[id].subscriptions == plan[id].moves[..k + 1])
    decreases id, 1, 0
  {
    var move := plan[id].moves[k];
    assert plan[id].moves[..k + 1] == plan[id].moves[..k] + [move];
    LinksCarryOver(plan, w, Ticked(w), id, owner);
    if faults(w.clock) {
    } else if move.Child? {
      MoveOnce(plan, id, k);
      ChildApplied(plan, w, id, move.id, owner, faults);
      var (w1, threw) := Apply(plan, Ticked(w), move.id, Parent(id), faults);
      if !threw { PushLogged(w1, id, move); }
    } else {
      PushLogged(Ticked(w), id, move);
      PatchLinks(plan, Ticked(w), id, move, owner);
    }
  }

  lemma PatchLinks(plan: seq<Spec>, w: World, id: nat, move: Move, owner: Owner)
    requires |plan| == |w.nodes| && id < |w.nodes| && LinkedBut(plan, w, id, owner) && move.Patch?
    ensures LinkedBut(plan, Push(w, id, move), id, owner)
  {
    var w' := Push(w, id, move);
    forall c, p | 0 <= c <= id && c < p < |w.nodes| && !(c == id && owner == Parent(p)) ensures Linked(plan, w', c, p) {
      assert Linked(plan, w, c, p);
    }
  }

  /** Applying a child, and registering its disposal unless that threw, links the two. */
  lemma {:induction false} ChildApplied(plan: seq<Spec>, w: World, id: nat, child: nat, owner: Owner, faults: Faults)
    requires ValidPlan(plan) && |plan| == |w.nodes| && child < id < |w.nodes|
    requires SettledBelow(plan, w, id) && LinkedBut(plan, w, id, owner) && Logged(w)
    requires Child(child) !in w.nodes[id].subscriptions
    ensures var (w1, threw) := Apply(plan, Ticked(w), child, Parent(id), faults);
            && Logged(w1) && SettledBelow(plan, w1, id)
            && LinkedBut(plan, if threw then w1 else Push(w1, id, Child(child)), id, owner)
    decreases id, 0, 0
  {
    LinksCarryOver(plan, w, Ticked(w), id, owner);
    ApplyKeeps(plan, Ticked(w), child, Parent(id), faults);
    var (w1, threw) := Apply(plan, Ticked(w), child, Parent(id), faults);
    var w' := if threw then w1 else Push(w1, id, Child(child));
    assert Linked(plan, w, child, id);
    assert Linked(plan, w', child, id);
    forall c, p | 0 <= c <= id && c < p < |w.nodes| && !(c == id && owner == Parent(p)) ensures Linked(plan, w', c, p) {
      if c > child {
        assert Linked(plan, w, c, p);
      } else if !(c == child && p == id) {
        assert Linked(plan, w1, c, p);
      }
    }
  }

  // ---------------------------------------------------------------------
  // Over every sequence of calls
  // ---------------------------------------------------------------------

  lemma PerformKeeps(plan: seq<Spec>, w: World, call: Call, faults: Faults)
    requires ValidPlan(plan) && Good(plan, w)
    ensures Good(plan, Perform(plan, w, call, faults))
  {
    if call.id < |w.nodes| {
      var owner, w' := Direct(call.key), Perform(plan, w, call, faults);
      assert LinkedBut(plan, w, call.id, owner);
      match call {
        case ApplyAs(id, _) => ApplyKeeps(plan, w, id, owner, faults);
        case DisposeAs(id, _) => DisposeKeeps(plan, w, id, owner);
      }
      assert LinkedBut(plan, w', call.id, owner);
      forall c, p | 0 <= c < |w.nodes| && c < p < |w.nodes| ensures Linked(plan, w', c, p) {
        if c > call.id { assert Linked(plan, w, c, p); }
      }
    }
  }

  lemma {:induction false} RunIsGood(plan: seq<Spec>, calls: seq<Call>, faults: Faults)
    requires ValidPlan(plan)
    ensures Good(plan, Run(plan, calls, faults))
  {
    if calls != [] {
      RunIsGood(plan, Init(calls), faults);
      PerformKeeps(plan, Run(plan, Init(calls), faults), Last(calls), faults);
    }
  }

  /** Between calls an interceptor is active exactly while somebody owns it. */
  lemma ActiveIffOwned(plan: seq<Spec>, calls: seq<Call>, faults: Faults, id: nat)
    requires ValidPlan(plan) && id < |plan|
    ensures var n := Run(plan, calls, faults).nodes[id]; n.state == Active <==> n.owners != {}
  {
    RunIsGood(plan, calls, faults);
  }

  /** The interceptors that own one are exactly the active ones whose setup applies it, if it suits. */
  lemma OwnedByActiveParents(plan: seq<Spec>, calls: seq<Call>, faults: Faults, c: nat, p: nat)
    requires ValidPlan(plan) && c < |plan| && p < |plan|
    ensures var w := Run(plan, calls, faults);
            Parent(p) in w.nodes[c].owners <==>
              w.nodes[p].state == Active && Child(c) in plan[p].moves && plan[c].suits
  {
    RunIsGood(plan, calls, faults);
    var w := Run(plan, calls, faults);
    if c < p {
      assert Linked(plan, w, c, p);
    }
  }

  function Times(log: seq<Entry>, e: Entry): nat {
    if log == [] then 0 else Times(Init(log), e) + (if Last(log) == e then 1 else 0)
  }

  lemma {:induction false} DoneIsUndoneOrPending(log: seq<Entry>, id: nat, move: Move)
    requires LastInFirstOut(log)
    ensures Times(log, Did(id, move)) == Times(log, Undid(id, move)) + multiset(Pending(log, id))[move]
  {
    if log != [] {
      DoneIsUndoneOrPending(Init(log), id, move);
      var before := Pending(Init(log), id);
      if Last(log).Undid? && Last(log).id == id {
        InitLast(before);
      }
    }
  }

  /** A step pending is a step of a setup that is in force. */
  lemma UndoneOnceLastFirst(plan: seq<Spec>, calls: seq<Call>, faults: Faults, id: nat, move: Move)
    requires ValidPlan(plan) && id < |plan|
    ensures var w := Run(plan, calls, faults);
            && LastInFirstOut(w.log)
            && Times(w.log, Did(id, move)) ==
                 Times(w.log, Undid(id, move)) +
                   (if w.nodes[id].state == Active then multiset(plan[id].moves)[move] else 0)
  {
    RunIsGood(plan, calls, faults);
    DoneIsUndoneOrPending(Run(plan, calls, faults).log, id, move);
  }

  // ---------------------------------------------------------------------
  // A setup that throws, and a dispose after an apply, leave no trace
  // ---------------------------------------------------------------------

  /** The same owners and subscriptions; inactive and disposed are told apart by nobody. */
  predicate Same(n: Node, n': Node) {
    n'.owners == n.owners && n'.subscriptions == n.subscriptions && (n'.state == Active <==> n.state == Active)
  }

  predicate AgreeBelow(w: World, w': World, k: nat) {
    |w'.nodes| == |w.nodes| && forall j :: 0 <= j < k && j < |w.nodes| ==> Same(w.nodes[j], w'.nodes[j])
  }

  lemma AgreeTransitive(w: World, w': World, w'': World, k: nat)
    requires AgreeBelow(w, w', k) && AgreeBelow(w', w'', k)
    ensures AgreeBelow(w, w'', k)
  {
  }

  lemma {:induction false} DisposeAgrees(w: World, w': World, id: nat, owner: Owner)
    requires id < |w.nodes| && AgreeBelow(w, w', id + 1)
    ensures AgreeBelow(Dispose(w, id, owner), Dispose(w', id, owner), id + 1)
    decreases id, 1, 0
  {
    var n, n' := w.nodes[id], w'.nodes[id];
    if owner in n.owners && n.owners - {owner} == {} {
      PopAllAgrees(With(w, id, n.(owners := {})), With(w', id, n'.(owners := {})), id);
    }
  }

  lemma {:induction false} PopAllAgrees(w: World, w': World, id: nat)
    requires id < |w.nodes| && AgreeBelow(w, w', id)
    requires w.nodes[id].subscriptions == w'.nodes[id].subscriptions
    ensures AgreeBelow(PopAll(w, id), PopAll(w', id), id)
    decreases id, 0, |w.nodes[id].subscriptions|
  {
    var subs := w.nodes[id].subscriptions;
    if subs != [] {
      UndoAgrees(Pop(w, id), Pop(w', id), id, Last(subs));
      PopAllAgrees(RunUndo(Pop(w, id), id, Last(subs)), RunUndo(Pop(w', id), id, Last(subs)), id);
    }
  }

  lemma {:induction false} UndoAgrees(w: World, w': World, id: nat, move: Move)
    requires id < |w.nodes| && AgreeBelow(w, w', id)
    ensures AgreeBelow(RunUndo(w, id, move), RunUndo(w', id, move), id)
    decreases id, 0, 0
  {
    if move.Child? && move.id < id {
      DisposeAgrees(w, w', move.id, Parent(id));
    }
  }

  /** What the lemmas below need of a world in which an interceptor is about to be applied or set up. */
  predicate Ready(plan: seq<Spec>, w: World, id: nat, owner: Owner) {
    && ValidPlan(plan) && |plan| == |w.nodes| && id < |w.nodes|
    && SettledBelow(plan, w, id) && LinkedBut(plan, w, id, owner) && Unlisted(w, id, owner) && Logged(w)
  }

  /** Applied and then disposed of, or applied with a setup that throws: as if it never was. */
  lemma {:induction false} ApplyLeavesNoTrace(plan: seq<Spec>, w: World, id: nat, owner: Owner, faults: Faults)
    requires Ready(plan, w, id, owner) && Settled(plan[id], w.nodes[id], id) && LinkedBelow(plan, w, id + 1)
    requires owner !in w.nodes[id].owners
    ensures var (w', threw) := Apply(plan, w, id, owner, faults);
            AgreeBelow(w, if threw then w' else Dispose(w', id, owner), id + 1)
    decreases id, 3, 0
  {
    var n := w.nodes[id];
    if n.state == Active {
      assert n.owners + {owner} - {owner} == n.owners;
    } else if plan[id].suits {
      var w1 := With(w, id, n.(owners := {owner}));
      assert n.owners + {owner} == {owner};
      OwnerChanges(plan, w, id, {owner}, owner);
      ActivateLeavesNoTrace(plan, w1, id, owner, faults);
    }
  }

  lemma {:induction false} ActivateLeavesNoTrace(plan: seq<Spec>, w1: World, id: nat, owner: Owner, faults: Faults)
    requires Ready(plan, w1, id, owner) && w1.nodes[id].owners == {owner}
    requires w1.nodes[id].state != Active && w1.nodes[id].subscriptions == []
    ensures var (w', threw) := Activate(plan, w1, id, owner, faults);
            var r := if threw then w' else Dispose(w', id, owner);
            AgreeBelow(w1, r, id) && r.nodes[id] == Node({}, Disposed, [])
    decreases id, 2, |plan[id].moves| + 1
  {
    SetupLeavesNoTrace(plan, w1, id, |plan[id].moves|, owner, faults);
    SetupKeeps(plan, w1, id, |plan[id].moves|, owner, faults);
    hide SettledBelow, LinkedBut, Logged;
    var (w2, threw) := Setup(plan, w1, id, |plan[id].moves|, faults);
    DisposeIsPopAll(w2, Ticked(w2), id, owner);
    if !threw && !faults(w2.clock) {
      DisposeIsPopAll(w2, Activate(plan, w1, id, owner, faults).0, id, owner);
    }
  }

  /** Disposing of the only owner undoes everything. */
  lemma {:induction false} DisposeIsPopAll(w: World, w': World, id: nat, owner: Owner)
    requires id < |w.nodes| && AgreeBelow(w, w', id)
    requires w'.nodes[id].subscriptions == w.nodes[id].subscriptions && w'.nodes[id].owners == {owner}
    ensures var r := Dispose(w', id, owner);
            && AgreeBelow(PopAll(w, id), r, id)
            && r.nodes[id] == Node({}, Disposed, [])
  {
    assert {owner} - {owner} == {};
    PopAllAgrees(w, With(w', id, w'.nodes[id].(owners := {})), id);
  }

  /** Undoing a setup, wherever it got to, restores everything below. */
  lemma {:induction false} SetupLeavesNoTrace(plan: seq<Spec>, w: World, id: nat, k: nat, owner: Owner, faults: Faults)
    requires Ready(plan, w, id, owner) && k <= |plan[id].moves|
    requires w.nodes[id].state != Active && w.nodes[id].subscriptions == []
    ensures AgreeBelow(w, PopAll(Setup(plan, w, id, k, faults).0, id), id)
    decreases id, 2, k
  {
    hide SettledBelow, LinkedBut, Logged;
    if k > 0 {
      hide AgreeBelow, PopAll, Take;
      SetupLeavesNoTrace(plan, w, id, k - 1, owner, faults);
      SetupKeeps(plan, w, id, k - 1, owner, faults);
      var (w1, threw) := Setup(plan, w, id, k - 1, faults);
      if !threw {
        TakeLeavesNoTrace(plan, w1, id, k - 1, owner, faults);
        AgreeTransitive(w, PopAll(w1, id), PopAll(Setup(plan, w, id, k, faults).0, id), id);
      }
    }
  }

  lemma {:induction false} TakeLeavesNoTrace(plan: seq<Spec>, w: World, id: nat, k: nat, owner: Owner, faults: Faults)
    requires Ready(plan, w, id, owner) && k < |plan[id].moves|
    requires w.nodes[id].state != Active && w.nodes[id].subscriptions == plan[id].moves[..k]
    ensures AgreeBelow(PopAll(w, id), PopAll(Take(plan, w, id, plan[id].moves[k], faults).0, id), id)
    decreases id, 1, 0
  {
    var move := plan[id].moves[k];
    var (w', threw) := Take(plan, w, id, move, faults);
    if faults(w.clock) {
      PopAllAgrees(w, w', id);
    } else if move.Child? {
      MoveOnce(plan, id, k);
      ChildLeavesNoTrace(plan, w, id, move.id, owner, faults);
      var w1 := Apply(plan, Ticked(w), move.id, Parent(id), faults).0;
      if threw {
        PopAllAgrees(w, w', id);
      } else {
        UndoneAtOnce(w, w1, id, move);
      }
    } else {
      PushThenPop(Ticked(w), id, move);
      PopAllAgrees(w, Pop(w', id), id);
    }
  }

  /** If a step's undo brings a world back, so does undoing everything after the step. */
  lemma {:induction false} UndoneAtOnce(w: World, w1: World, id: nat, move: Move)
    requires id < |w.nodes| && id < |w1.nodes| && w1.nodes[id].subscriptions == w.nodes[id].subscriptions
    requires AgreeBelow(w, RunUndo(w1, id, move), id)
    ensures AgreeBelow(PopAll(w, id), PopAll(Push(w1, id, move), id), id)
  {
    var w' := Push(w1, id, move);
    PushThenPop(w1, id, move);
    UndoAgrees(w1, Pop(w', id), id, move);
    PopAllAgrees(w, RunUndo(Pop(w', id), id, move), id);
  }

  lemma PushThenPop(w: World, id: nat, move: Move)
    requires id < |w.nodes|
    ensures var w' := Push(w, id, move);
            Last(w'.nodes[id].subscriptions) == move && Pop(w', id).nodes == w.nodes
  {
    var w' := Push(w, id, move);
    InitOfSnoc(w.nodes[id].subscriptions, move);
    assert Pop(w', id).nodes[id] == w.nodes[id];
  }

  lemma {:induction false} ChildLeavesNoTrace(plan: seq<Spec>, w: World, id: nat, child: nat, owner: Owner, faults: Faults)
    requires Ready(plan, w, id, owner) && child < id && Child(child) !in w.nodes[id].subscriptions
    ensures var (w1, threw) := Apply(plan, Ticked(w), child, Parent(id), faults);
            AgreeBelow(w, if threw then w1 else RunUndo(w1, id, Child(child)), id)
    decreases id, 0, 0
  {
    var w0 := Ticked(w);
    LinksCarryOver(plan, w, w0, id, owner);
    assert LinkedBelow(plan, w0, child + 1);
    assert Linked(plan, w0, child, id);
    ApplyLeavesNoTrace(plan, w0, child, Parent(id), faults);
  }

  /** An apply that throws changes no interceptor's owners, and one that does not is undone by its dispose. */
  lemma {:induction false} ApplyIsUndone(plan: seq<Spec>, w: World, id: nat, key: nat, faults: Faults)
    requires ValidPlan(plan) && Good(plan, w) && id < |plan| && Direct(key) !in w.nodes[id].owners
    ensures var (w', threw) := Apply(plan, w, id, Direct(key), faults);
            AgreeBelow(w, if threw then w' else Dispose(w', id, Direct(key)), |plan|)
  {
    assert LinkedBut(plan, w, id, Direct(key));
    ApplyLeavesNoTrace(plan, w, id, Direct(key), faults);
  }

  // ---------------------------------------------------------------------
  // The objects
  // ---------------------------------------------------------------------

  /** All interceptors of a process, their fields updated in place. */
  class Interceptors {
    const plan: seq<Spec>
    const faults: Faults
    var nodes: seq<Node>
    var clock: nat
    ghost var log: seq<Entry>

    ghost function Model(): World
      reads this
    {
      World(nodes, log, clock)
    }

    ghost predicate Valid()
      reads this
    {
      |nodes| == |plan|
    }

    constructor (plan: seq<Spec>, faults: Faults)
      ensures Valid() && this.plan == plan && this.faults == faults && Model() == Fresh(plan)
    {
      this.plan, this.faults := plan, faults;
      nodes := seq(|plan|, _ => Node({}, Inactive, []));
      clock, log := 0, [];
    }

    /** The last subscription is taken off the list before it is run. */
    method PopSubscription(id: nat) returns (subscription: Move)
      requires Valid() && id < |nodes| && nodes[id].subscriptions != []
      modifies this`nodes, this`log
      ensures Valid() && Model() == Pop(old(Model()), id) && subscription == Last(old(nodes[id].subscriptions))
    {
      subscription := Last(nodes[id].subscriptions);
      nodes := nodes[id := nodes[id].(subscriptions := Init(nodes[id].subscriptions))];
      log := log + [Undid(id, subscription)];
    }

    method RunSubscriptions(id: nat)
      requires Valid() && id < |nodes|
      modifies this`nodes, this`log
      ensures Valid() && Model() == PopAll(old(Model()), id)
      decreases id, 0
    {
      while nodes[id].subscriptions != []
        modifies this`nodes, this`log
        invariant Valid() && PopAll(Model(), id) == PopAll(old(Model()), id)
        decreases |nodes[id].subscriptions|
      {
        var subscription := PopSubscription(id);
        ghost var popped := Model();
        if subscription.Child? && subscription.id < id {
          DisposeOf(subscription.id, Parent(id));
        }
        assert Model() == RunUndo(popped, id, subscription);
      }
    }

    method DisposeOf(id: nat, owner: Owner)
      requires Valid() && id < |nodes|
      modifies this`nodes, this`log
      ensures Valid() && Model() == Dispose(old(Model()), id, owner)
      decreases id, 1
    {
      if owner !in nodes[id].owners {
        return;
      }
      nodes := nodes[id := nodes[id].(owners := nodes[id].owners - {owner})];
      if nodes[id].owners != {} {
        return;
      }
      RunSubscriptions(id);
      nodes := nodes[id := nodes[id].(state := Disposed)];
    }

    method AddSubscription(id: nat, move: Move)
      requires Valid() && id < |nodes|
      modifies this`nodes, this`log
      ensures Valid() && Model() == Push(old(Model()), id, move)
    {
      nodes := nodes[id := nodes[id].(subscriptions := nodes[id].subscriptions + [move])];
      log := log + [Did(id, move)];
    }

    method TakeStep(id: nat, move: Move) returns (threw: bool)
      requires Valid() && id < |nodes|
      modifies this
      ensures Valid() && (Model(), threw) == Take(plan, old(Model()), id, move, faults)
      decreases id, 0
    {
      var failed := faults(clock);
      clock := clock + 1;
      if failed {
        return true;
      }
      if move.Child? && move.id < id {
        threw := ApplyOf(move.id, Parent(id));
        if threw {
          return;
        }
      }
      AddSubscription(id, move);
      threw := false;
    }

    method RunSetup(id: nat) returns (threw: bool)
      requires Valid() && id < |nodes|
      modifies this
      ensures Valid() && (Model(), threw) == Setup(plan, old(Model()), id, |plan[id].moves|, faults)
      decreases id, 1
    {
      threw := false;
      ghost var w := Model();
      for i := 0 to |plan[id].moves|
        invariant Valid() && (Model(), threw) == Setup(plan, w, id, i, faults)
      {
        if !threw {
          threw := TakeStep(id, plan[id].moves[i]);
        }
      }
    }

    method ApplyOf(id: nat, owner: Owner) returns (threw: bool)
      requires Valid() && id < |nodes|
      modifies this
      ensures Valid() && (Model(), threw) == Apply(plan, old(Model()), id, owner, faults)
      decreases id, 2
    {
      if owner in nodes[id].owners {
        return false;
      }
      if nodes[id].state != Active && !plan[id].suits {
        return false;
      }
      nodes := nodes[id := nodes[id].(owners := nodes[id].owners + {owner})];
      if nodes[id].state == Active {
        return false;
      }
      threw := RunSetup(id);
      threw := threw || faults(clock);
      clock := clock + 1;
      if threw {
        DisposeOf(id, owner);
      } else {
        nodes := nodes[id := nodes[id].(state := Active)];
      }
    }
  }

  /** Call after call, on the objects themselves. */
  method Live(plan: seq<Spec>, calls: seq<Call>, faults: Faults) returns (all: Interceptors)
    ensures fresh(all) && all.Valid() && all.plan == plan && all.Model() == Run(plan, calls, faults)
  {
    all := new Interceptors(plan, faults);
    for i := 0 to |calls|
      invariant fresh(all) && all.Valid() && all.plan == plan && all.faults == faults
      invariant all.Model() == Run(plan, calls[..i], faults)
    {
      assert Init(calls[..i + 1]) == calls[..i];
      if calls[i].id < |all.nodes| {
        match calls[i] {
          case ApplyAs(id, key) => var _ := all.ApplyOf(id, Direct(key));
          case DisposeAs(id, key) => all.DisposeOf(id, Direct(key));
        }
      }
    }
    assert calls[..|calls|] == calls;
  }
}
