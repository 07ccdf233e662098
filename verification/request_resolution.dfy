/**
 Request resolution: the race between the listeners, the abort signal and the
 request controller, and the branches an error thrown by a listener falls through.
 Everybody may call the controllers at any time, before, during and after the race.
 */
module RequestResolution {
  import opened Prelude

  /** A value a listener may throw, or pass to a controller. "Nothing" stands for the falsy values. */
  datatype Value =
    | Nothing
    | Refusal
    | NodeError(id: nat)
    | OtherError(id: nat)
    | Reply(id: nat)
    | Thing(id: nat)
    | ServerError(cause: Value)

  datatype Settlement = Unsettled | Forwarded | Answered | Failed

  /** A call of the controller, which is also the call it makes of its source. */
  datatype Call = PassThrough | RespondWith(value: Value) | ErrorWith(value: Value)

  /** "forwarding" until the source's own passthrough has settled. */
  datatype Controller = Controller(state: Settlement, handled: bool, forwarding: bool, calls: seq<Call>)

  datatype Listeners = Working | Finished | Threw(value: Value)

  datatype Outcome = Returned | Rejected(reason: Value)

  datatype Stage = Racing | Unhandled(error: Value) | AwaitingHandled(own: bool) | Over(outcome: Outcome)

  datatype Handling = Handling(
    outer: Controller,
    nested: Option<Controller>,
    aborted: Option<Value>,
    listeners: Listeners,
    stage: Stage)

  datatype Winner = ByAbort | ByListeners | ByHandled

  datatype Event =
    | Ask(call: Call)
    | AskNested(call: Call)
    | ForwardEnds(failure: Option<Value>)
    | Abort(reason: Value)
    | ListenersEnd(thrown: Option<Value>)
    | Resume(winner: Winner)
    | UnhandledEnd(thrown: Option<Value>)

  const NewController := Controller(Unsettled, false, false, [])

  predicate IsError(v: Value) {
    v.Refusal? || v.NodeError? || v.OtherError?
  }

  function StateAfter(call: Call): Settlement {
    match call
    case PassThrough => Forwarded
    case RespondWith(_) => Answered
    case ErrorWith(_) => Failed
  }

  /** A settled controller refuses every call; responding with nothing fails before it settles. */
  predicate Accepts(c: Controller, call: Call) {
    c.state == Unsettled && call != RespondWith(Nothing)
  }

  function Settle(c: Controller, call: Call): Controller {
    if !Accepts(c, call) then c
    else if call.PassThrough? then c.(state := Forwarded, forwarding := true, calls := c.calls + [call])
    else c.(state := StateAfter(call), handled := true, calls := c.calls + [call])
  }

  /** How a response given to the nested controller reaches the outer one. */
  function AsCall(v: Value): Call {
    if IsError(v) then ErrorWith(v) else RespondWith(v)
  }

  function Relayed(call: Call): Option<Call> {
    match call
    case PassThrough => None
    case RespondWith(v) => Some(AsCall(v))
    case ErrorWith(v) => Some(call)
  }

  function DoAskNested(h: Handling, call: Call): Handling {
    if h.nested.None? || !Accepts(h.nested.value, call) then h else
      var h1 := h.(nested := Some(Settle(h.nested.value, call)));
      if Relayed(call).Some? then h1.(outer := Settle(h.outer, Relayed(call).value)) else h1
  }

  /** Waiting for the controller ends once it is handled. */
  function Notice(h: Handling): Handling {
    if h.stage.AwaitingHandled? && h.outer.handled then h.(stage := Over(Returned)) else h
  }

  /** The source's passthrough settles; a failure rejects the handler only when the handler asked for it. */
  function DoForwardEnds(h: Handling, failure: Option<Value>): Handling {
    if !h.outer.forwarding then h else
      var h1 := h.(outer := h.outer.(forwarding := false, handled := failure.None?));
      if failure.Some? && h.stage == AwaitingHandled(true) then h1.(stage := Over(Rejected(failure.value)))
      else Notice(h1)
  }

  /** The handler's own last call: refused calls reject the handler. */
  function Conclude(h: Handling, call: Call): Handling {
    if Accepts(h.outer, call) then h.(outer := Settle(h.outer, call), stage := Over(Returned))
    else h.(stage := Over(Rejected(Refusal)))
  }

  predicate HasSettled(h: Handling, w: Winner) {
    match w
    case ByAbort => h.aborted.Some?
    case ByListeners => !h.listeners.Working?
    case ByHandled => h.outer.handled
  }

  function ResultError(h: Handling, w: Winner): Value
    requires HasSettled(h, w)
  {
    match w
    case ByAbort => h.aborted.value
    case ByListeners => if h.listeners.Threw? then h.listeners.value else Nothing
    case ByHandled => Nothing
  }

  function OnError(h: Handling, error: Value, exceptionListeners: bool): Handling {
    match error
    case Refusal => h.(stage := Over(Rejected(Refusal)))
    case NodeError(_) => Conclude(h, ErrorWith(error))
    case Reply(_) => Conclude(h, RespondWith(error))
    case ServerError(_) => Conclude(h, RespondWith(error))
    case _ =>
      if exceptionListeners then h.(nested := Some(NewController), stage := Unhandled(error))
      else Conclude(h, RespondWith(ServerError(error)))
  }

  function DoResume(h: Handling, w: Winner, exceptionListeners: bool): Handling {
    if h.stage != Racing || !HasSettled(h, w) then h
    else if h.aborted.Some? then Conclude(h, ErrorWith(h.aborted.value))
    else if ResultError(h, w) != Nothing then OnError(h, ResultError(h, w), exceptionListeners)
    else if h.outer.state == Unsettled then h.(outer := Settle(h.outer, PassThrough), stage := AwaitingHandled(true))
    else Notice(h.(stage := AwaitingHandled(false)))
  }

  function DoUnhandledEnd(h: Handling, thrown: Option<Value>): Handling {
    if !h.stage.Unhandled? || h.nested.None? then h
    else if thrown.Some? then h.(stage := Over(Rejected(thrown.value)))
    else if h.nested.value.state != Unsettled then h.(stage := Over(Returned))
    else Conclude(h, RespondWith(ServerError(h.stage.error)))
  }

  function Step(h: Handling, e: Event, exceptionListeners: bool): Handling {
    match e
    case Ask(call) => Notice(h.(outer := Settle(h.outer, call)))
    case AskNested(call) => DoAskNested(h, call)
    case ForwardEnds(failure) => DoForwardEnds(h, failure)
    case Abort(reason) => if h.stage == Racing && h.aborted.None? then h.(aborted := Some(reason)) else h
    case ListenersEnd(thrown) =>
      if h.listeners != Working then h
      else h.(listeners := if thrown.Some? then Threw(thrown.value) else Finished)
    case Resume(w) => DoResume(h, w, exceptionListeners)
    case UnhandledEnd(thrown) => DoUnhandledEnd(h, thrown)
  }

  /** A request whose signal was aborted beforehand is failed at once. */
  function Start(signal: Option<Value>): Handling {
    var h := Handling(NewController, None, signal, Working, Racing);
    if signal.Some? then Conclude(h, ErrorWith(signal.value)) else h
  }

  function Run(signal: Option<Value>, events: seq<Event>, exceptionListeners: bool): Handling {
    if events == [] then Start(signal)
    else Step(Run(signal, Init(events), exceptionListeners), Last(events), exceptionListeners)
  }

  // ---------------------------------------------------------------------
  // Settled once
  // ---------------------------------------------------------------------

  /** The source was called exactly once if the controller is settled, as it says, and never before. */
  predicate SettledOnce(c: Controller) {
    && (c.state == Unsettled <==> c.calls == [])
    && (c.state != Unsettled ==> |c.calls| == 1 && StateAfter(c.calls[0]) == c.state)
    && (c.state == Unsettled ==> !c.handled && !c.forwarding)
  }

  lemma SettleIsOnce(c: Controller, call: Call)
    requires SettledOnce(c)
    ensures SettledOnce(Settle(c, call))
    ensures c.state != Unsettled ==> Settle(c, call) == c
  {
  }

  predicate Sound(h: Handling) {
    && SettledOnce(h.outer)
    && (h.nested.Some? ==> SettledOnce(h.nested.value))
    && (h.stage.AwaitingHandled? ==> h.outer.state != Unsettled && !h.outer.handled)
    && (h.stage.Unhandled? ==> h.nested.Some? && h.aborted.None?)
    && (h.stage.Racing? ==> h.nested.None?)
    && (h.aborted.Some? ==> h.stage.Racing? || h.stage.Over?)
  }

  /** A nested controller that gave or failed the request settled the outer one; only its passthrough may not have. */
  predicate NestedCounts(h: Handling) {
    h.nested.Some? && h.nested.value.state in {Answered, Failed} ==> h.outer.state != Unsettled
  }

  predicate ReturnsSettled(h: Handling) {
    h.stage == Over(Returned) && h.outer.state == Unsettled ==> h.nested.Some? && h.nested.value.state == Forwarded
  }

  predicate AbortDecides(h: Handling) {
    h.aborted.Some? && h.stage == Over(Returned) ==> h.outer.calls == [ErrorWith(h.aborted.value)]
  }

  lemma ConcludeKeeps(h: Handling, call: Call)
    requires Sound(h) && NestedCounts(h) && call != RespondWith(Nothing)
    requires h.aborted.Some? ==> call == ErrorWith(h.aborted.value)
    ensures var h' := Conclude(h, call);
            && Sound(h') && NestedCounts(h') && ReturnsSettled(h') && AbortDecides(h')
            && h'.outer == Settle(h.outer, call)
  {
    SettleIsOnce(h.outer, call);
  }

  lemma AskNestedKeeps(h: Handling, call: Call)
    requires Sound(h) && NestedCounts(h) && ReturnsSettled(h) && AbortDecides(h)
    ensures var h' := DoAskNested(h, call);
            && Sound(h') && NestedCounts(h') && ReturnsSettled(h') && AbortDecides(h')
            && (h.outer.state != Unsettled ==> h'.outer == h.outer)
  {
    if h.nested.Some? && Accepts(h.nested.value, call) {
      SettleIsOnce(h.nested.value, call);
      if Relayed(call).Some? {
        SettleIsOnce(h.outer, Relayed(call).value);
        assert Accepts(h.outer, Relayed(call).value) || h.outer.state != Unsettled;
      }
    }
  }

  lemma ResumeKeeps(h: Handling, w: Winner, exceptionListeners: bool)
    requires Sound(h) && NestedCounts(h) && ReturnsSettled(h) && AbortDecides(h)
    ensures var h' := DoResume(h, w, exceptionListeners);
            && Sound(h') && NestedCounts(h') && ReturnsSettled(h') && AbortDecides(h')
            && (h.outer.state != Unsettled ==> h'.outer == h.outer)
  {
    if h.stage == Racing && HasSettled(h, w) {
      if h.aborted.Some? {
        ConcludeKeeps(h, ErrorWith(h.aborted.value));
      } else {
        var error := ResultError(h, w);
        if error.NodeError? { ConcludeKeeps(h, ErrorWith(error)); }
        if error.Reply? || error.ServerError? { ConcludeKeeps(h, RespondWith(error)); }
        if error.OtherError? || error.Thing? { ConcludeKeeps(h, RespondWith(ServerError(error))); }
      }
    }
  }

  lemma {:induction false} StepKeeps(h: Handling, e: Event, exceptionListeners: bool)
    requires Sound(h) && NestedCounts(h) && ReturnsSettled(h) && AbortDecides(h)
    ensures var h' := Step(h, e, exceptionListeners);
            && Sound(h') && NestedCounts(h') && ReturnsSettled(h') && AbortDecides(h')
            && (h.outer.state != Unsettled ==> h'.outer.calls == h.outer.calls && h'.outer.state == h.outer.state)
  {
    hide DoResume;
    match e
    case Ask(call) => SettleIsOnce(h.outer, call);
    case AskNested(call) => AskNestedKeeps(h, call);
    case Resume(w) => ResumeKeeps(h, w, exceptionListeners);
    case UnhandledEnd(_) =>
      if h.stage.Unhandled? { ConcludeKeeps(h, RespondWith(ServerError(h.stage.error))); }
    case _ =>
  }

  lemma {:induction false} RunKeeps(signal: Option<Value>, events: seq<Event>, exceptionListeners: bool)
    ensures var h := Run(signal, events, exceptionListeners);
            Sound(h) && NestedCounts(h) && ReturnsSettled(h) && AbortDecides(h)
  {
    if events != [] {
      RunKeeps(signal, Init(events), exceptionListeners);
      StepKeeps(Run(signal, Init(events), exceptionListeners), Last(events), exceptionListeners);
    }
  }

  /**
   Over every interleaving, late calls included, the source is called at most once,
   exactly when the controller is settled, and by the call the controller's state names.
   */
  lemma {:induction false} SourceCalledOnce(signal: Option<Value>, events: seq<Event>, exceptionListeners: bool)
    ensures var c := Run(signal, events, exceptionListeners).outer;
            && |c.calls| <= 1
            && (c.state == Unsettled <==> c.calls == [])
            && (c.calls != [] ==> StateAfter(c.calls[0]) == c.state)
  {
    RunKeeps(signal, events, exceptionListeners);
  }

  /** The first settlement wins: nothing that comes later changes what the source was asked to do. */
  lemma {:induction false} FirstSettlementWins(signal: Option<Value>, events: seq<Event>, more: seq<Event>, exceptionListeners: bool)
    requires Run(signal, events, exceptionListeners).outer.state != Unsettled
    ensures Run(signal, events + more, exceptionListeners).outer.calls ==
            Run(signal, events, exceptionListeners).outer.calls
    ensures Run(signal, events + more, exceptionListeners).outer.state ==
            Run(signal, events, exceptionListeners).outer.state
  {
    if more == [] {
      assert events + more == events;
    } else {
      FirstSettlementWins(signal, events, Init(more), exceptionListeners);
      assert Init(events + more) == events + Init(more) && Last(events + more) == Last(more);
      RunKeeps(signal, events + Init(more), exceptionListeners);
      StepKeeps(Run(signal, events + Init(more), exceptionListeners), Last(more), exceptionListeners);
    }
  }

  /** A handler that returned left the request settled, unless an exception listener passed it through. */
  lemma ReturnMeansSettled(signal: Option<Value>, events: seq<Event>, exceptionListeners: bool)
    requires Run(signal, events, exceptionListeners).stage == Over(Returned)
    ensures var h := Run(signal, events, exceptionListeners);
            h.outer.state != Unsettled || (h.nested.Some? && h.nested.value.state == Forwarded)
  {
    RunKeeps(signal, events, exceptionListeners);
  }

  /**
   The step in which the handler returns leaves the request undecided exactly when it was
   undecided before and an exception listener passed it through.
   */
  lemma {:induction false} ReturnsPendingIff(signal: Option<Value>, events: seq<Event>, e: Event, exceptionListeners: bool)
    requires Run(signal, events, exceptionListeners).stage != Over(Returned)
    requires Run(signal, events + [e], exceptionListeners).stage == Over(Returned)
    ensures var h := Run(signal, events, exceptionListeners);
            Run(signal, events + [e], exceptionListeners).outer.state == Unsettled <==>
              h.outer.state == Unsettled && h.nested.Some? && h.nested.value.state == Forwarded
  {
    InitOfSnoc(events, e);
    RunKeeps(signal, events, exceptionListeners);
    RunKeeps(signal, events + [e], exceptionListeners);
    ReturningStep(Run(signal, events, exceptionListeners), e, exceptionListeners);
  }

  lemma ReturningStep(h: Handling, e: Event, exceptionListeners: bool)
    requires Sound(h) && h.stage != Over(Returned) && Step(h, e, exceptionListeners).stage == Over(Returned)
    requires ReturnsSettled(Step(h, e, exceptionListeners))
    ensures Step(h, e, exceptionListeners).outer.state == Unsettled <==>
              h.outer.state == Unsettled && h.nested.Some? && h.nested.value.state == Forwarded
  {
    match e
    case Resume(w) => assert h.stage == Racing && h.nested.None?;
    case UnhandledEnd(_) =>
    case _ =>
  }

  /** That exception is real: the listener throws, its exception listener passes through, nobody is ever asked. */
  lemma NestedPassthroughLeavesPending(error: Value)
    requires error.OtherError? || error.Thing?
    ensures var h := Run(None, [ListenersEnd(Some(error)), Resume(ByListeners), AskNested(PassThrough), UnhandledEnd(None)], true);
            h.stage == Over(Returned) && h.outer == NewController
  {
    var e1 := [ListenersEnd(Some(error))];
    var e2 := e1 + [Resume(ByListeners)];
    var e3 := e2 + [AskNested(PassThrough)];
    InitOfSnoc([], ListenersEnd(Some(error)));
    InitOfSnoc(e1, Resume(ByListeners));
    InitOfSnoc(e2, AskNested(PassThrough));
    InitOfSnoc(e3, UnhandledEnd(None));
    assert Run(None, e1, true) == Handling(NewController, None, None, Threw(error), Racing);
    assert Run(None, e2, true) == Handling(NewController, Some(NewController), None, Threw(error), Unhandled(error));
    assert e3 + [UnhandledEnd(None)] ==
           [ListenersEnd(Some(error)), Resume(ByListeners), AskNested(PassThrough), UnhandledEnd(None)];
  }

  /** An abort noticed while racing: a handler that returns then has failed the request with the abort's reason. */
  lemma AbortedReturnFails(signal: Option<Value>, events: seq<Event>, exceptionListeners: bool)
    requires var h := Run(signal, events, exceptionListeners); h.aborted.Some? && h.stage == Over(Returned)
    ensures var h := Run(signal, events, exceptionListeners); h.outer.calls == [ErrorWith(h.aborted.value)]
  {
    RunKeeps(signal, events, exceptionListeners);
  }

  // ---------------------------------------------------------------------
  // Where the answer came from
  // ---------------------------------------------------------------------

  /** The answers an event can give rise to. */
  function Answers(e: Event): set<Call> {
    match e
    case Ask(call) => {call}
    case AskNested(call) => if Relayed(call).Some? then {Relayed(call).value} else {}
    case Abort(reason) => {ErrorWith(reason)}
    case ListenersEnd(thrown) =>
      if thrown.None? then {} else
        (match thrown.value
         case Nothing => {}
         case Refusal => {}
         case NodeError(_) => {ErrorWith(thrown.value)}
         case Reply(_) => {RespondWith(thrown.value)}
         case ServerError(_) => {RespondWith(thrown.value)}
         case _ => {RespondWith(ServerError(thrown.value))})
    case _ => {}
  }

  function AllAnswers(signal: Option<Value>, events: seq<Event>): set<Call> {
    if events == [] then {PassThrough} + (if signal.Some? then {ErrorWith(signal.value)} else {})
    else AllAnswers(signal, Init(events)) + Answers(Last(events))
  }

  predicate Explained(h: Handling, answers: set<Call>) {
    && PassThrough in answers
    && (forall c :: c in h.outer.calls ==> c in answers)
    && (h.aborted.Some? ==> ErrorWith(h.aborted.value) in answers)
    && (h.listeners.Threw? ==> Answers(ListenersEnd(Some(h.listeners.value))) <= answers)
    && (h.stage.Unhandled? ==> h.stage.error.OtherError? || h.stage.error.Thing?)
    && (h.stage.Unhandled? ==> RespondWith(ServerError(h.stage.error)) in answers)
  }

  lemma ResumeIsExplained(h: Handling, w: Winner, exceptionListeners: bool, answers: set<Call>)
    requires Explained(h, answers)
    ensures Explained(DoResume(h, w, exceptionListeners), answers)
  {
    if h.stage == Racing && HasSettled(h, w) && h.aborted.None? && ResultError(h, w) != Nothing {
      assert h.listeners.Threw? && ResultError(h, w) == h.listeners.value;
      assert Answers(ListenersEnd(Some(h.listeners.value))) <= answers;
    }
  }

  lemma StepIsExplained(h: Handling, e: Event, exceptionListeners: bool, answers: set<Call>)
    requires Explained(h, answers)
    ensures Explained(Step(h, e, exceptionListeners), answers + Answers(e))
  {
    assert Explained(h, answers + Answers(e));
    match e
    case Resume(w) => ResumeIsExplained(h, w, exceptionListeners, answers);
    case _ =>
  }

  /** Whatever the source was asked to do goes back to a call, an abort or a thrown value. */
  lemma {:induction false} RunIsExplained(signal: Option<Value>, events: seq<Event>, exceptionListeners: bool)
    ensures Explained(Run(signal, events, exceptionListeners), AllAnswers(signal, events))
  {
    if events != [] {
      RunIsExplained(signal, Init(events), exceptionListeners);
      StepIsExplained(Run(signal, Init(events), exceptionListeners), Last(events), exceptionListeners,
                      AllAnswers(signal, Init(events)));
    }
  }

  /** Nobody calls a controller with a server error made of an InterceptorError; only the handler makes these. */
  predicate NoForgedRefusal(events: seq<Event>) {
    forall e :: e in events ==> RespondWith(ServerError(Refusal)) !in Answers(e)
  }

  lemma {:induction false} AnswersAvoid(signal: Option<Value>, events: seq<Event>, call: Call)
    requires call != PassThrough && (signal.Some? ==> call != ErrorWith(signal.value))
    requires forall e :: e in events ==> call !in Answers(e)
    ensures call !in AllAnswers(signal, events)
  {
    if events != [] {
      InitLast(events);
      AnswersAvoid(signal, Init(events), call);
    }
  }

  /** An InterceptorError is never turned into a response. */
  lemma RefusalIsNeverAnswered(signal: Option<Value>, events: seq<Event>, exceptionListeners: bool)
    requires NoForgedRefusal(events)
    ensures RespondWith(ServerError(Refusal)) !in Run(signal, events, exceptionListeners).outer.calls
  {
    RunIsExplained(signal, events, exceptionListeners);
    AnswersAvoid(signal, events, RespondWith(ServerError(Refusal)));
  }

  /** A thrown InterceptorError that wins the race rejects the handler and settles nothing. */
  lemma ThrownRefusalRejects(h: Handling, exceptionListeners: bool)
    requires h.stage == Racing && h.aborted.None? && h.listeners == Threw(Refusal)
    ensures var h' := Step(h, Resume(ByListeners), exceptionListeners);
            h'.stage == Over(Rejected(Refusal)) && h'.outer == h.outer && h'.nested == h.nested
  {
  }

  /**
   What a listener throws while the request is undecided is overlooked, and the request
   passed through as if nothing happened, exactly when the thrown value is falsy.
   */
  lemma OverlookedIffFalsy(h: Handling, error: Value, exceptionListeners: bool)
    requires Sound(h) && h.stage == Racing && h.aborted.None? && h.outer.state == Unsettled
    requires h.listeners == Threw(error)
    ensures Step(h, Resume(ByListeners), exceptionListeners).outer.calls == [PassThrough] <==> error == Nothing
  {
    assert h.outer.calls == [];
    if error != Nothing {
      var h' := OnError(h, error, exceptionListeners);
      assert h'.outer.calls == [] || h'.outer.calls[0] != PassThrough;
    }
  }

  // ---------------------------------------------------------------------
  // The objects
  // ---------------------------------------------------------------------

  class RequestController {
    var readyState: Settlement
    var handled: bool
    var forwarding: bool
    ghost var calls: seq<Call>

    ghost function Model(): Controller
      reads this
    {
      Controller(readyState, handled, forwarding, calls)
    }

    constructor ()
      ensures Model() == NewController
    {
      readyState, handled, forwarding, calls := Unsettled, false, false, [];
    }

    method Passthrough() returns (accepted: bool)
      modifies this
      ensures accepted == Accepts(old(Model()), PassThrough) && Model() == Settle(old(Model()), PassThrough)
    {
      if readyState != Unsettled {
        return false;
      }
      readyState := Forwarded;
      forwarding := true;
      calls := calls + [PassThrough];
      return true;
    }

    method Respond(response: Value) returns (accepted: bool)
      modifies this
      ensures accepted == Accepts(old(Model()), RespondWith(response))
      ensures Model() == Settle(old(Model()), RespondWith(response))
    {
      if response == Nothing || readyState != Unsettled {
        return false;
      }
      readyState := Answered;
      handled := true;
      calls := calls + [RespondWith(response)];
      return true;
    }

    method Fail(reason: Value) returns (accepted: bool)
      modifies this
      ensures accepted == Accepts(old(Model()), ErrorWith(reason)) && Model() == Settle(old(Model()), ErrorWith(reason))
    {
      if readyState != Unsettled {
        return false;
      }
      readyState := Failed;
      calls := calls + [ErrorWith(reason)];
      handled := true;
      return true;
    }

    method Perform(call: Call) returns (accepted: bool)
      modifies this
      ensures accepted == Accepts(old(Model()), call) && Model() == Settle(old(Model()), call)
    {
      match call
      case PassThrough => accepted := Passthrough();
      case RespondWith(response) => accepted := Respond(response);
      case ErrorWith(reason) => accepted := Fail(reason);
    }

    method EndForwarding(resolved: bool)
      modifies this
      ensures Model() == old(Model()).(forwarding := false, handled := resolved)
    {
      forwarding, handled := false, resolved;
    }
  }

  class RequestHandler {
    const controller: RequestController
    const exceptionListeners: bool
    var unhandledExceptionController: RequestController?
    var isRequestAborted: bool
    var requestAbortReason: Value
    var listeners: Listeners
    var stage: Stage

    ghost function Repr(): set<object>
      reads this
    {
      {this, controller} + (if unhandledExceptionController == null then {} else {unhandledExceptionController})
    }

    ghost predicate Valid()
      reads this
    {
      unhandledExceptionController != controller
    }

    ghost function Model(): Handling
      reads Repr()
    {
      Handling(
        controller.Model(),
        if unhandledExceptionController == null then None else Some(unhandledExceptionController.Model()),
        if isRequestAborted then Some(requestAbortReason) else None,
        listeners, stage)
    }

    constructor (controller: RequestController, signal: Option<Value>, exceptionListeners: bool)
      requires controller.Model() == NewController
      modifies controller
      ensures Valid() && this.controller == controller && this.exceptionListeners == exceptionListeners
      ensures unhandledExceptionController == null && Model() == Start(signal)
    {
      this.controller := controller;
      this.exceptionListeners := exceptionListeners;
      unhandledExceptionController := null;
      isRequestAborted := signal.Some?;
      requestAbortReason := if signal.Some? then signal.value else Nothing;
      listeners, stage := Working, Racing;
      new;
      if signal.Some? {
        ConcludeWith(ErrorWith(signal.value));
      }
    }

    method ConcludeWith(call: Call)
      requires Valid()
      modifies this`stage, controller
      ensures Valid() && Model() == Conclude(old(Model()), call)
    {
      var accepted := controller.Perform(call);
      stage := Over(if accepted then Returned else Rejected(Refusal));
    }

    method NoticeHandled()
      requires Valid()
      modifies this`stage
      ensures Valid() && Model() == Notice(old(Model()))
    {
      if stage.AwaitingHandled? && controller.handled {
        stage := Over(Returned);
      }
    }

    /** A listener, or anybody holding the controller, calls it. */
    method OnCall(call: Call)
      requires Valid()
      modifies this`stage, controller
      ensures Valid() && Model() == Step(old(Model()), Ask(call), exceptionListeners)
    {
      var _ := controller.Perform(call);
      NoticeHandled();
    }

    /** An exception listener calls the nested controller, whose source relays to the outer one. */
    method OnNestedCall(call: Call)
      requires Valid()
      modifies controller, unhandledExceptionController
      ensures Valid() && Model() == DoAskNested(old(Model()), call)
    {
      if unhandledExceptionController == null {
        return;
      }
      var accepted := unhandledExceptionController.Perform(call);
      if !accepted {
        return;
      }
      match call {
        case PassThrough =>
        case RespondWith(response) =>
          if IsError(response) {
            var _ := controller.Fail(response);
          } else {
            var _ := controller.Respond(response);
          }
        case ErrorWith(reason) => var _ := controller.Fail(reason);
      }
    }

    method OnForwardEnds(failure: Option<Value>)
      requires Valid()
      modifies this`stage, controller
      ensures Valid() && Model() == DoForwardEnds(old(Model()), failure)
    {
      if !controller.forwarding {
        return;
      }
      controller.EndForwarding(failure.None?);
      if failure.Some? && stage == AwaitingHandled(true) {
        stage := Over(Rejected(failure.value));
        return;
      }
      NoticeHandled();
    }

    method OnAbort(reason: Value)
      requires Valid()
      modifies this`isRequestAborted, this`requestAbortReason
      ensures Valid() && Model() == Step(old(Model()), Abort(reason), exceptionListeners)
    {
      if stage == Racing && !isRequestAborted {
        isRequestAborted := true;
        requestAbortReason := reason;
      }
    }

    method OnListenersEnd(thrown: Option<Value>)
      requires Valid()
      modifies this`listeners
      ensures Valid() && Model() == Step(old(Model()), ListenersEnd(thrown), exceptionListeners)
    {
      if listeners == Working {
        listeners := if thrown.Some? then Threw(thrown.value) else Finished;
      }
    }

    /** A thrown value that is neither an InterceptorError, nor a Node.js error, nor a response. */
    method HandleUnknownError(error: Value)
      requires Valid() && (error.OtherError? || error.Thing?)
      modifies this`stage, this`unhandledExceptionController, controller
      ensures Valid() && Model() == OnError(old(Model()), error, exceptionListeners)
      ensures unhandledExceptionController == old(unhandledExceptionController) || fresh(unhandledExceptionController)
    {
      if exceptionListeners {
        unhandledExceptionController := new RequestController();
        stage := Unhandled(error);
        return;
      }
      ConcludeWith(RespondWith(ServerError(error)));
    }

    /** The race is over; the handler goes on. */
    method OnResume(winner: Winner)
      requires Valid()
      modifies this`stage, this`unhandledExceptionController, controller
      ensures Valid() && Model() == DoResume(old(Model()), winner, exceptionListeners)
      ensures old(stage) == Racing && winner == ByListeners && !isRequestAborted && old(controller.readyState) == Unsettled &&
              (listeners == Finished || listeners == Threw(Nothing)) ==>
                stage == AwaitingHandled(true) && controller.calls == old(controller.calls) + [PassThrough]
      ensures unhandledExceptionController == old(unhandledExceptionController) || fresh(unhandledExceptionController)
    {
      if stage != Racing || !SettledBy(winner) {
        return;
      }
      if isRequestAborted {
        ConcludeWith(ErrorWith(requestAbortReason));
        return;
      }
      var resultError := if winner == ByListeners && listeners.Threw? then listeners.value else Nothing;
      if resultError != Nothing {
        if resultError.Refusal? {
          stage := Over(Rejected(Refusal));
        } else if resultError.NodeError? {
          ConcludeWith(ErrorWith(resultError));
        } else if resultError.Reply? || resultError.ServerError? {
          ConcludeWith(RespondWith(resultError));
        } else {
          HandleUnknownError(resultError);
        }
        return;
      }
      if controller.readyState == Unsettled {
        var _ := controller.Passthrough();
        stage := AwaitingHandled(true);
        return;
      }
      stage := AwaitingHandled(false);
      NoticeHandled();
    }

    predicate SettledBy(winner: Winner)
      reads this, controller
    {
      match winner
      case ByAbort => isRequestAborted
      case ByListeners => !listeners.Working?
      case ByHandled => controller.handled
    }

    method OnUnhandledEnd(thrown: Option<Value>)
      requires Valid()
      modifies this`stage, controller
      ensures Valid() && Model() == DoUnhandledEnd(old(Model()), thrown)
    {
      if !stage.Unhandled? || unhandledExceptionController == null {
        return;
      }
      if thrown.Some? {
        stage := Over(Rejected(thrown.value));
        return;
      }
      if unhandledExceptionController.readyState != Unsettled {
        stage := Over(Returned);
        return;
      }
      ConcludeWith(RespondWith(ServerError(stage.error)));
    }

    method HandleEvent(e: Event)
      requires Valid()
      modifies Repr()
      ensures Valid() && Model() == Step(old(Model()), e, exceptionListeners) && fresh(Repr() - old(Repr()))
    {
      match e
      case Ask(call) => OnCall(call);
      case AskNested(call) => OnNestedCall(call);
      case ForwardEnds(failure) => OnForwardEnds(failure);
      case Abort(reason) => OnAbort(reason);
      case ListenersEnd(thrown) => OnListenersEnd(thrown);
      case Resume(winner) => OnResume(winner);
      case UnhandledEnd(thrown) => OnUnhandledEnd(thrown);
    }
  }

  /** Any interleaving, event after event, on the objects themselves. */
  method HandleRequest(signal: Option<Value>, events: seq<Event>, exceptionListeners: bool) returns (h: RequestHandler)
    ensures h.Valid() && h.Model() == Run(signal, events, exceptionListeners)
  {
    var controller := new RequestController();
    h := new RequestHandler(controller, signal, exceptionListeners);
    assert events[..0] == [];
    for i := 0 to |events|
      invariant fresh(h.Repr()) && h.Valid() && h.exceptionListeners == exceptionListeners
      invariant h.Model() == Run(signal, events[..i], exceptionListeners)
    {
      InitOfSnoc(events[..i], events[i]);
      assert events[..i + 1] == events[..i] + [events[i]];
      h.HandleEvent(events[i]);
    }
    assert events[..|events|] == events;
  }
}
