/**
 Verdict counting: how many subscribers a connection waits for, and when the
 controller passes the connection through because every one of them declined.
 */
module Verdicts {
  import opened Prelude
  import opened SocketMachine

  /** What the controller did; "automatic" tells its own passthrough from one asked for. */
  datatype Mark = GaveClaim | GavePass(automatic: bool) | Refused(automatic: bool) | Reopened

  datatype Desk = Desk(state: ReadyState, awaited: int, deferred: nat, destroyed: bool, log: seq<Mark>)

  datatype Call =
    | AskClaim
    | AskPass
    | Decline(who: nat)
    | Destroy
    | NextTick
    | StartOver

  function DeskClaim(d: Desk): Desk {
    if d.state == Pending then d.(state := Claimed, log := d.log + [GaveClaim])
    else d.(log := d.log + [Refused(false)])
  }

  function DeskPass(d: Desk, automatic: bool): Desk {
    if d.state == Pending then d.(state := Passthrough, log := d.log + [GavePass(automatic)])
    else d.(log := d.log + [Refused(automatic)])
  }

  function DeskDecline(d: Desk): Desk {
    if d.state != Pending then d
    else if d.awaited - 1 <= 0 then d.(awaited := d.awaited - 1, deferred := d.deferred + 1)
    else d.(awaited := d.awaited - 1)
  }

  /** One deferred passthrough: it looks at the controller again before acting. */
  function DeskTick(d: Desk): Desk {
    if d.deferred == 0 then d
    else if d.state == Pending && !d.destroyed then DeskPass(d.(deferred := d.deferred - 1), true)
    else d.(deferred := d.deferred - 1)
  }

  function DeskReset(d: Desk): Desk {
    if d.state == Pending then d else d.(state := Pending, log := d.log + [Reopened])
  }

  function Awaiting(n: nat): Desk {
    var d := Desk(Pending, n, 0, false, []);
    if n == 0 then DeskPass(d, true) else d
  }

  function Serve(d: Desk, call: Call): Desk {
    match call
    case AskClaim => DeskClaim(d)
    case AskPass => DeskPass(d, false)
    case Decline(_) => DeskDecline(d)
    case Destroy => d.(destroyed := true)
    case NextTick => DeskTick(d)
    case StartOver => DeskReset(d)
  }

  function Served(n: nat, calls: seq<Call>): Desk {
    if calls == [] then Awaiting(n) else Serve(Served(n, Init(calls)), Last(calls))
  }

  // ---------------------------------------------------------------------
  // Who declined
  // ---------------------------------------------------------------------

  /** The declines that came while the connection was undecided: the others are ignored. */
  function Counted(n: nat, calls: seq<Call>): nat {
    if calls == [] then 0 else
      Counted(n, Init(calls)) +
      (if Last(calls).Decline? && Served(n, Init(calls)).state == Pending then 1 else 0)
  }

  function Decliners(calls: seq<Call>): set<nat> {
    if calls == [] then {} else
      Decliners(Init(calls)) + (if Last(calls).Decline? then {Last(calls).who} else {})
  }

  function Subscribers(n: nat): (r: set<nat>)
    ensures forall who: nat :: who in r <==> who < n
    ensures |r| == n
  {
    if n == 0 then {} else Subscribers(n - 1) + {n - 1}
  }

  /** Only awaited subscribers decline, each at most once. */
  predicate DeclineOnce(n: nat, calls: seq<Call>) {
    calls == [] ||
    (&& DeclineOnce(n, Init(calls))
     && (Last(calls).Decline? ==> Last(calls).who < n && Last(calls).who !in Decliners(Init(calls))))
  }

  predicate AllDeclined(n: nat, calls: seq<Call>) {
    Decliners(calls) == Subscribers(n)
  }

  /** The verdict a log leaves. */
  function Standing(log: seq<Mark>): ReadyState {
    if log == [] then Pending else
      match Last(log)
      case GaveClaim => Claimed
      case GavePass(_) => Passthrough
      case Reopened => Pending
      case Refused(_) => Standing(Init(log))
  }

  /** Verdicts are given only to undecided exchanges, and refused only to decided ones. */
  predicate Orderly(log: seq<Mark>) {
    log == [] ||
    (&& Orderly(Init(log))
     && (Last(log).GaveClaim? || Last(log).GavePass? <==> Standing(Init(log)) == Pending)
     && Last(log) != Refused(true))
  }

  lemma MarkSnoc(log: seq<Mark>, mark: Mark)
    requires Orderly(log)
    requires (mark.GaveClaim? || mark.GavePass? <==> Standing(log) == Pending) && mark != Refused(true)
    ensures Orderly(log + [mark])
    ensures Standing(log + [mark]) == (match mark
                                       case GaveClaim => Claimed
                                       case GavePass(_) => Passthrough
                                       case Reopened => Pending
                                       case Refused(_) => Standing(log))
  {
    InitOfSnoc(log, mark);
  }

  // ---------------------------------------------------------------------
  // Over every interleaving
  // ---------------------------------------------------------------------

  predicate InOrder(d: Desk) {
    Orderly(d.log) && Standing(d.log) == d.state && Refused(true) !in d.log
  }

  lemma ServeInOrder(d: Desk, call: Call)
    requires InOrder(d)
    ensures InOrder(Serve(d, call))
  {
    match call
    case AskClaim => MarkSnoc(d.log, if d.state == Pending then GaveClaim else Refused(false));
    case AskPass => MarkSnoc(d.log, if d.state == Pending then GavePass(false) else Refused(false));
    case NextTick => if d.state == Pending { MarkSnoc(d.log, GavePass(true)); }
    case StartOver => if d.state != Pending { MarkSnoc(d.log, Reopened); }
    case _ =>
  }

  /**
   Each exchange gets at most one verdict, a later one is refused, and the automatic
   passthrough is never the one refused, whatever calls, declines, resets and ticks come.
   */
  lemma {:induction false} OneVerdictPerExchange(n: nat, calls: seq<Call>)
    ensures InOrder(Served(n, calls))
  {
    if calls == [] {
      MarkSnoc([], GavePass(true));
    } else {
      OneVerdictPerExchange(n, Init(calls));
      ServeInOrder(Served(n, Init(calls)), Last(calls));
    }
  }

  /** The counter is what is left of the awaited declines; a deferred passthrough means none is. */
  lemma {:induction false} CounterIsExact(n: nat, calls: seq<Call>)
    ensures var d := Served(n, calls);
            && d.awaited == n - Counted(n, calls)
            && (d.deferred > 0 || GavePass(true) in d.log ==> Counted(n, calls) >= n)
  {
    if calls != [] { CounterIsExact(n, Init(calls)); }
  }

  lemma {:induction false} CountedIsDistinct(n: nat, calls: seq<Call>)
    requires DeclineOnce(n, calls)
    ensures Counted(n, calls) <= |Decliners(calls)| && Decliners(calls) <= Subscribers(n)
  {
    if calls != [] { CountedIsDistinct(n, Init(calls)); }
  }

  lemma FullSubset<T>(part: set<T>, whole: set<T>)
    requires part <= whole && |part| >= |whole|
    ensures part == whole
  {
    assert whole == part + (whole - part);
  }

  /**
   The controller passes a connection through by itself only when it awaited nobody
   or every awaited subscriber declined, in this exchange or an earlier one.
   */
  lemma AutomaticMeansAllDeclined(n: nat, calls: seq<Call>)
    requires DeclineOnce(n, calls)
    requires GavePass(true) in Served(n, calls).log
    ensures n == 0 || AllDeclined(n, calls)
  {
    CounterIsExact(n, calls);
    CountedIsDistinct(n, calls);
    FullSubset(Decliners(calls), Subscribers(n));
  }

  /** The first exchange on a socket that stays open. */
  predicate FirstExchange(calls: seq<Call>) {
    Destroy !in calls && StartOver !in calls
  }

  lemma {:induction false} StaysAlive(n: nat, calls: seq<Call>)
    requires Destroy !in calls
    ensures !Served(n, calls).destroyed
  {
    if calls != [] {
      InitLast(calls);
      StaysAlive(n, Init(calls));
    }
  }

  /** In the first exchange an undecided connection has counted every decline. */
  lemma {:induction false} UndecidedCountsAll(n: nat, calls: seq<Call>)
    requires DeclineOnce(n, calls) && FirstExchange(calls) && Served(n, calls).state == Pending
    ensures Counted(n, calls) == |Decliners(calls)|
    ensures Counted(n, calls) >= n ==> n > 0 && Served(n, calls).deferred > 0
  {
    if calls != [] {
      InitLast(calls);
      StaysAlive(n, Init(calls));
      CounterIsExact(n, Init(calls));
      assert Served(n, Init(calls)).state == Pending;
      UndecidedCountsAll(n, Init(calls));
    }
  }

  /**
   In the first exchange nothing waits forever: once the deferred ticks ran, the
   connection is undecided exactly when nobody decided and some subscriber did not decline.
   */
  lemma UndecidedMeansSomebodyIsDue(n: nat, calls: seq<Call>)
    requires DeclineOnce(n, calls) && FirstExchange(calls)
    requires Served(n, calls).deferred == 0
    ensures Served(n, calls).state == Pending <==>
              n > 0 && !AllDeclined(n, calls) && AskClaim !in calls && AskPass !in calls
  {
    if Served(n, calls).state == Pending {
      UndecidedCountsAll(n, calls);
      if AskClaim in calls || AskPass in calls { AskedIsDecided(n, calls); }
    } else if AskClaim !in calls && AskPass !in calls {
      UnaskedIsAutomatic(n, calls);
      if n > 0 { AutomaticMeansAllDeclined(n, calls); }
    }
  }

  lemma {:induction false} AskedIsDecided(n: nat, calls: seq<Call>)
    requires StartOver !in calls && (AskClaim in calls || AskPass in calls)
    ensures Served(n, calls).state != Pending
  {
    InitLast(calls);
    if AskClaim in Init(calls) || AskPass in Init(calls) { AskedIsDecided(n, Init(calls)); }
  }

  lemma {:induction false} UnaskedIsAutomatic(n: nat, calls: seq<Call>)
    requires AskClaim !in calls && AskPass !in calls
    ensures Served(n, calls).state == Pending || GavePass(true) in Served(n, calls).log
  {
    if calls != [] {
      InitLast(calls);
      UnaskedIsAutomatic(n, Init(calls));
    }
  }

  // ---------------------------------------------------------------------
  // Every exchange
  // ---------------------------------------------------------------------

  /** How many calls came before the exchange that is open now. */
  function Began(n: nat, calls: seq<Call>): (k: nat)
    ensures k <= |calls|
  {
    if calls == [] then 0
    else if Last(calls).StartOver? && Served(n, Init(calls)).state != Pending then |calls|
    else Began(n, Init(calls))
  }

  /** A call that decides an undecided exchange: an explicit verdict, or the decline that leaves none awaited. */
  predicate Decides(n: nat, calls: seq<Call>, i: nat)
    requires i < |calls|
  {
    calls[i].AskClaim? || calls[i].AskPass? || (calls[i].Decline? && n - Counted(n, calls[..i]) <= 1)
  }

  /** Nothing decided the open exchange since it began, and nothing was scheduled when it did. */
  predicate LeftWaiting(n: nat, calls: seq<Call>) {
    var k := Began(n, calls);
    && Served(n, calls[..k]).deferred == 0
    && (k == 0 ==> n > 0)
    && (forall i :: k <= i < |calls| ==> !Decides(n, calls, i))
  }

  lemma LeftWaitingSnoc(n: nat, calls: seq<Call>)
    requires calls != [] && !(Last(calls).StartOver? && Served(n, Init(calls)).state != Pending)
    ensures LeftWaiting(n, calls) <==> LeftWaiting(n, Init(calls)) && !Decides(n, calls, |calls| - 1)
  {
    var before, k := Init(calls), Began(n, calls);
    assert calls[..k] == before[..k];
    forall i | k <= i < |before| ensures Decides(n, calls, i) <==> Decides(n, before, i) {
      assert calls[..i] == before[..i];
    }
  }

  /**
   On a socket that stays open, any exchange is undecided with nothing scheduled, and so
   waits until somebody calls again, exactly when nothing decided it: nobody claimed it or
   passed it through, no decline left none awaited, and no tick was due from an earlier one.
   */
  lemma {:induction false} WaitsIff(n: nat, calls: seq<Call>)
    requires Destroy !in calls
    ensures Served(n, calls).state == Pending && Served(n, calls).deferred == 0 <==> LeftWaiting(n, calls)
  {
    if calls == [] {
    } else {
      var before, call := Init(calls), Last(calls);
      InitLast(calls);
      WaitsIff(n, before);
      StaysAlive(n, before);
      CounterIsExact(n, before);
      assert calls[..|calls| - 1] == before && calls[..|calls|] == calls;
      if !(call.StartOver? && Served(n, before).state != Pending) { LeftWaitingSnoc(n, calls); }
    }
  }

  /**
   A decline that comes after another subscriber's claim is not counted: here both
   subscribers declined in the end, and the second exchange waits with nothing scheduled.
   */
  lemma {:induction false} LateDeclineIsLost()
    ensures var calls := [AskClaim, Decline(1), StartOver, Decline(0)];
            && DeclineOnce(2, calls) && AllDeclined(2, calls)
            && Served(2, calls).state == Pending && Served(2, calls).deferred == 0
  {
    var c1 := [AskClaim];
    var c2 := c1 + [Decline(1)];
    var c3 := c2 + [StartOver];
    var c4 := c3 + [Decline(0)];
    InitOfSnoc([], AskClaim);
    InitOfSnoc(c1, Decline(1));
    InitOfSnoc(c2, StartOver);
    InitOfSnoc(c3, Decline(0));
    assert c4 == [AskClaim, Decline(1), StartOver, Decline(0)];
    assert Decliners(c1) == {} && Decliners(c2) == {1} && Decliners(c3) == {1} && Decliners(c4) == {0, 1};
    assert Served(2, c1) == Desk(Claimed, 2, 0, false, [GaveClaim]);
    assert Served(2, c2) == Served(2, c1);
  }

  /**
   No late decline is needed: the count is not re-armed, so once all declined and the
   connection was passed through, the next exchange waits for a call that may never come.
   */
  lemma {:induction false} NextExchangeIsNotPassed()
    ensures var calls := [Decline(0), NextTick, StartOver];
            && DeclineOnce(1, calls) && AllDeclined(1, calls)
            && Served(1, calls).state == Pending && Served(1, calls).deferred == 0
  {
    var c1 := [Decline(0)];
    var c2 := c1 + [NextTick];
    var c3 := c2 + [StartOver];
    InitOfSnoc([], Decline(0));
    InitOfSnoc(c1, NextTick);
    InitOfSnoc(c2, StartOver);
    assert c3 == [Decline(0), NextTick, StartOver];
    assert Decliners(c1) == {0} && Decliners(c2) == {0} && Decliners(c3) == {0};
    assert Served(1, c1) == Desk(Pending, 0, 1, false, []);
    assert Served(1, c2) == Desk(Passthrough, 0, 0, false, [GavePass(true)]);
  }

  // ---------------------------------------------------------------------
  // Ticks
  // ---------------------------------------------------------------------

  function Automatic(log: seq<Mark>): nat {
    if log == [] then 0 else Automatic(Init(log)) + (if Last(log) == GavePass(true) then 1 else 0)
  }

  lemma {:induction false} DestroyedIff(n: nat, calls: seq<Call>)
    ensures Served(n, calls).destroyed <==> Destroy in calls
  {
    if calls != [] {
      InitLast(calls);
      DestroyedIff(n, Init(calls));
    }
  }

  /** Starting over reopens a decided connection, destroyed or not, and leaves an undecided one as it is. */
  lemma StartingOver(n: nat, calls: seq<Call>)
    ensures var d, d' := Served(n, calls), Served(n, calls + [StartOver]);
            && d'.state == Pending && d'.awaited == d.awaited && d'.deferred == d.deferred
            && d'.log == d.log + (if d.state == Pending then [] else [Reopened])
  {
    InitOfSnoc(calls, StartOver);
  }

  /**
   A tick that is due passes the connection through exactly when it is undecided then and
   the socket was never destroyed; nothing but a tick does so on its own.
   */
  lemma {:induction false} TickPassesIff(n: nat, calls: seq<Call>, call: Call)
    ensures var d, d' := Served(n, calls), Served(n, calls + [call]);
            Automatic(d'.log) == Automatic(d.log) +
              (if call.NextTick? && d.deferred > 0 && d.state == Pending && Destroy !in calls then 1 else 0)
  {
    var d, d' := Served(n, calls), Served(n, calls + [call]);
    InitOfSnoc(calls, call);
    DestroyedIff(n, calls);
    if d'.log != d.log { InitOfSnoc(d.log, Last(d'.log)); }
  }

  // ---------------------------------------------------------------------
  // The controller itself
  // ---------------------------------------------------------------------

  class SocketController {
    var readyState: ReadyState
    var awaitedVerdicts: int
    var deferredPassthroughs: nat
    var socketDestroyed: bool
    ghost var log: seq<Mark>

    ghost function Model(): Desk
      reads this
    {
      Desk(readyState, awaitedVerdicts, deferredPassthroughs, socketDestroyed, log)
    }

    constructor ()
      ensures Model() == Desk(Pending, 0, 0, false, [])
    {
      readyState := Pending;
      awaitedVerdicts, deferredPassthroughs, socketDestroyed, log := 0, 0, false, [];
    }

    method Claim() returns (accepted: bool)
      modifies this
      ensures Model() == DeskClaim(old(Model()))
      ensures accepted <==> old(readyState) == Pending
    {
      if readyState != Pending {
        log := log + [Refused(false)];
        return false;
      }
      readyState := Claimed;
      log := log + [GaveClaim];
      return true;
    }

    method Pass(ghost automatic: bool) returns (accepted: bool)
      modifies this
      ensures Model() == DeskPass(old(Model()), automatic)
      ensures accepted <==> old(readyState) == Pending
    {
      if readyState != Pending {
        log := log + [Refused(automatic)];
        return false;
      }
      readyState := Passthrough;
      log := log + [GavePass(automatic)];
      return true;
    }

    /** Called once, before anybody holds the controller. */
    method AwaitVerdicts(count: nat)
      requires Model() == Desk(Pending, 0, 0, false, [])
      modifies this
      ensures Model() == Awaiting(count)
    {
      awaitedVerdicts := count;
      if awaitedVerdicts == 0 {
        var _ := Pass(true);
      }
    }

    method DeclineConnection()
      modifies this
      ensures Model() == DeskDecline(old(Model()))
    {
      if readyState != Pending { return; }
      awaitedVerdicts := awaitedVerdicts - 1;
      if awaitedVerdicts <= 0 {
        deferredPassthroughs := deferredPassthroughs + 1;
      }
    }

    method RunDeferredPassthrough()
      modifies this
      ensures Model() == DeskTick(old(Model()))
    {
      if deferredPassthroughs == 0 { return; }
      deferredPassthroughs := deferredPassthroughs - 1;
      if readyState == Pending && !socketDestroyed {
        var _ := Pass(true);
      }
    }

    method Reset()
      modifies this
      ensures Model() == DeskReset(old(Model()))
    {
      if readyState == Pending { return; }
      readyState := Pending;
      log := log + [Reopened];
    }

    method DestroySocket()
      modifies this
      ensures Model() == old(Model()).(destroyed := true)
    {
      socketDestroyed := true;
    }
  }

  /** A connection served by the class, call after call, is the run the lemmas speak of. */
  method ServeAll(n: nat, calls: seq<Call>) returns (c: SocketController)
    ensures fresh(c) && c.Model() == Served(n, calls)
  {
    c := new SocketController();
    c.AwaitVerdicts(n);
    assert calls[..0] == [];
    for i := 0 to |calls|
      invariant fresh(c) && c.Model() == Served(n, calls[..i])
    {
      InitOfSnoc(calls[..i], calls[i]);
      assert calls[..i + 1] == calls[..i] + [calls[i]];
      match calls[i] {
        case AskClaim => var _ := c.Claim();
        case AskPass => var _ := c.Pass(false);
        case Decline(_) => c.DeclineConnection();
        case Destroy => c.DestroySocket();
        case NextTick => c.RunDeferredPassthrough();
        case StartOver => c.Reset();
      }
    }
    assert calls[..|calls|] == calls;
  }
}
