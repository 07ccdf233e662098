/**
 What a request comes to: which call each event makes of the source, and how the handler
 ends, for every state a run can reach.
 */
module RequestOutcomes {
  import opened Prelude
  import opened RequestResolution

  function After(signal: Option<Value>, events: seq<Event>, e: Event, exceptionListeners: bool): Handling {
    Run(signal, events + [e], exceptionListeners)
  }

  lemma {:induction false} AfterIsStep(signal: Option<Value>, events: seq<Event>, e: Event, exceptionListeners: bool)
    ensures After(signal, events, e, exceptionListeners) ==
            Step(Run(signal, events, exceptionListeners), e, exceptionListeners)
    ensures Sound(Run(signal, events, exceptionListeners))
  {
    InitOfSnoc(events, e);
    RunKeeps(signal, events, exceptionListeners);
  }

  // ---------------------------------------------------------------------
  // Calls
  // ---------------------------------------------------------------------

  /** Until somebody settles it, the first call reaches the source as it is; only a response of nothing does not. */
  lemma {:induction false} FirstCallReaches(signal: Option<Value>, events: seq<Event>, call: Call, exceptionListeners: bool)
    requires Run(signal, events, exceptionListeners).outer.state == Unsettled
    ensures After(signal, events, Ask(call), exceptionListeners).outer.calls ==
            if call == RespondWith(Nothing) then [] else [call]
    ensures After(signal, events, Ask(call), exceptionListeners).outer.handled <==>
            !call.PassThrough? && call != RespondWith(Nothing)
  {
    AfterIsStep(signal, events, Ask(call), exceptionListeners);
  }

  /** What reaches the source of a call of an exception listener. */
  function PassedOn(call: Call): seq<Call> {
    match call
    case PassThrough => []
    case ErrorWith(_) => [call]
    case RespondWith(v) =>
      if v == Nothing then []
      else if v.Refusal? || v.NodeError? || v.OtherError? then [ErrorWith(v)] else [call]
  }

  /**
   The first call of an exception listener settles its controller, and reaches the source too
   if that is undecided, an error given as a response as an error; a passthrough does not.
   */
  lemma {:induction false} NestedCallReaches(signal: Option<Value>, events: seq<Event>, call: Call, exceptionListeners: bool)
    requires var h := Run(signal, events, exceptionListeners);
             h.nested.Some? && h.nested.value.state == Unsettled
    ensures var h, h' := Run(signal, events, exceptionListeners), After(signal, events, AskNested(call), exceptionListeners);
            && h'.nested.Some? && (h'.nested.value.state == Unsettled <==> call == RespondWith(Nothing))
            && (h.outer.state != Unsettled ==> h'.outer == h.outer)
            && (h.outer.state == Unsettled ==> h'.outer.calls == PassedOn(call))
  {
    AfterIsStep(signal, events, AskNested(call), exceptionListeners);
  }

  // ---------------------------------------------------------------------
  // The race
  // ---------------------------------------------------------------------

  predicate Overlooked(l: Listeners) {
    l == Finished || l == Threw(Nothing)
  }

  /** How a thrown value ends the handler, and which call it makes of the source if that is still undecided. */
  function Answer(v: Value): Option<Call> {
    match v
    case NodeError(_) => Some(ErrorWith(v))
    case Reply(_) => Some(RespondWith(v))
    case ServerError(_) => Some(RespondWith(v))
    case OtherError(_) => Some(RespondWith(ServerError(v)))
    case Thing(_) => Some(RespondWith(ServerError(v)))
    case _ => None
  }

  /** Neither an answer nor an InterceptorError: the exception listeners are asked first. */
  predicate Exception(v: Value) {
    v.OtherError? || v.Thing?
  }

  /**
   The listeners are done and nobody handled the request: it is passed through exactly when
   they finished, or threw something falsy; what else they threw is answered, or refused, or
   left to the exception listeners.
   */
  lemma {:induction false} UndecidedOutcome(signal: Option<Value>, events: seq<Event>, exceptionListeners: bool)
    requires var h := Run(signal, events, exceptionListeners);
             h.stage == Racing && h.aborted.None? && h.outer.state == Unsettled && !h.listeners.Working?
    ensures var h, h' := Run(signal, events, exceptionListeners), After(signal, events, Resume(ByListeners), exceptionListeners);
            && (h'.outer.calls == [PassThrough] <==> Overlooked(h.listeners))
            && (Overlooked(h.listeners) ==> h'.stage == AwaitingHandled(true))
            && (h.listeners == Threw(Refusal) ==> h'.outer.calls == [] && h'.stage == Over(Rejected(Refusal)))
            && (h.listeners.Threw? && Answer(h.listeners.value).Some? ==>
                  if Exception(h.listeners.value) && exceptionListeners
                  then h'.outer.calls == [] && h'.stage == Unhandled(h.listeners.value) && h'.nested == Some(NewController)
                  else h'.outer.calls == [Answer(h.listeners.value).value] && h'.stage == Over(Returned))
  {
    AfterIsStep(signal, events, Resume(ByListeners), exceptionListeners);
    var h, h' := Run(signal, events, exceptionListeners), After(signal, events, Resume(ByListeners), exceptionListeners);
    if !Overlooked(h.listeners) { assert h'.outer.calls == [] || h'.outer.calls[0] != PassThrough; }
  }

  /** The request was decided already: nothing more is asked of the source, and the handler waits for it, returns or refuses. */
  lemma {:induction false} DecidedOutcome(signal: Option<Value>, events: seq<Event>, w: Winner, exceptionListeners: bool)
    requires var h := Run(signal, events, exceptionListeners);
             && h.stage == Racing && h.aborted.None? && h.outer.state != Unsettled
             && ((w == ByListeners && !h.listeners.Working?) || (w == ByHandled && h.outer.handled))
    ensures var h, h' := Run(signal, events, exceptionListeners), After(signal, events, Resume(w), exceptionListeners);
            && h'.outer == h.outer
            && (w == ByHandled || Overlooked(h.listeners) ==>
                  h'.stage == if h.outer.handled then Over(Returned) else AwaitingHandled(false))
            && (w == ByListeners && !Overlooked(h.listeners) ==>
                  if Exception(h.listeners.value) && exceptionListeners
                  then h'.stage == Unhandled(h.listeners.value) && h'.nested == Some(NewController)
                  else h'.stage == Over(Rejected(Refusal)))
  {
    AfterIsStep(signal, events, Resume(w), exceptionListeners);
  }

  /** An abort noticed while racing: whoever wins, the request fails with its reason, or the handler is refused if it was decided. */
  lemma {:induction false} AbortOutcome(signal: Option<Value>, events: seq<Event>, reason: Value, w: Winner, exceptionListeners: bool)
    requires var h := Run(signal, events, exceptionListeners);
             && h.stage == Racing && h.aborted.None?
             && (w == ByListeners ==> !h.listeners.Working?) && (w == ByHandled ==> h.outer.handled)
    ensures var h := Run(signal, events, exceptionListeners);
            var h' := After(signal, events + [Abort(reason)], Resume(w), exceptionListeners);
            if h.outer.state == Unsettled then h'.outer.calls == [ErrorWith(reason)] && h'.stage == Over(Returned)
            else h'.outer == h.outer && h'.stage == Over(Rejected(Refusal))
  {
    var h, h1 := Run(signal, events, exceptionListeners), Run(signal, events + [Abort(reason)], exceptionListeners);
    AfterIsStep(signal, events, Abort(reason), exceptionListeners);
    AfterIsStep(signal, events + [Abort(reason)], Resume(w), exceptionListeners);
    hide Run;
    assert h1 == h.(aborted := Some(reason));
  }

  /** A winner that has not settled, and any resumption after the race, change nothing. */
  lemma {:induction false} NoFalseStart(signal: Option<Value>, events: seq<Event>, w: Winner, exceptionListeners: bool)
    requires var h := Run(signal, events, exceptionListeners);
             || h.stage != Racing || (w == ByListeners && h.listeners.Working?)
             || (w == ByHandled && !h.outer.handled) || (w == ByAbort && h.aborted.None?)
    ensures After(signal, events, Resume(w), exceptionListeners) == Run(signal, events, exceptionListeners)
  {
    AfterIsStep(signal, events, Resume(w), exceptionListeners);
  }

  /** A signal aborted beforehand: whatever comes, the source is asked to fail with its reason, and the handler has returned. */
  lemma {:induction false} AbortedBeforehand(reason: Value, events: seq<Event>, exceptionListeners: bool)
    ensures var h := Run(Some(reason), events, exceptionListeners);
            h.outer.calls == [ErrorWith(reason)] && h.stage == Over(Returned)
  {
    if events != [] {
      AbortedBeforehand(reason, Init(events), exceptionListeners);
      RunKeeps(Some(reason), Init(events), exceptionListeners);
      OverIsFinal(Run(Some(reason), Init(events), exceptionListeners), Last(events), exceptionListeners);
      StepKeeps(Run(Some(reason), Init(events), exceptionListeners), Last(events), exceptionListeners);
    }
  }

  lemma {:induction false} OverIsFinal(h: Handling, e: Event, exceptionListeners: bool)
    requires h.stage.Over?
    ensures Step(h, e, exceptionListeners).stage == h.stage
  {
  }

  // ---------------------------------------------------------------------
  // After the race
  // ---------------------------------------------------------------------

  /**
   The source's passthrough settles: done, it ends the wait; failed, it rejects the handler
   that asked for it, and leaves one that did not waiting.
   */
  lemma {:induction false} PassthroughEnds(signal: Option<Value>, events: seq<Event>, failure: Option<Value>, exceptionListeners: bool)
    requires Run(signal, events, exceptionListeners).outer.forwarding
    ensures var h, h' := Run(signal, events, exceptionListeners), After(signal, events, ForwardEnds(failure), exceptionListeners);
            && !h'.outer.forwarding && (h'.outer.handled <==> failure.None?) && h'.outer.calls == h.outer.calls
            && (h.stage.AwaitingHandled? ==>
                  h'.stage == if failure.None? then Over(Returned)
                              else if h.stage.own then Over(Rejected(failure.value)) else h.stage)
  {
    AfterIsStep(signal, events, ForwardEnds(failure), exceptionListeners);
  }

  /** The whole of the ordinary case: nobody calls, the listeners finish, and the request goes through. */
  lemma {:induction false} UntouchedGoesThrough(exceptionListeners: bool)
    ensures var events := [ListenersEnd(None), Resume(ByListeners)];
            && Run(None, events, exceptionListeners).outer.calls == [PassThrough]
            && Run(None, events, exceptionListeners).outer.forwarding
            && After(None, events, ForwardEnds(None), exceptionListeners).stage == Over(Returned)
  {
    var e1 := [ListenersEnd(None)];
    AfterIsStep(None, [], ListenersEnd(None), exceptionListeners);
    assert [] + [ListenersEnd(None)] == e1;
    UndecidedOutcome(None, e1, exceptionListeners);
    AfterIsStep(None, e1, Resume(ByListeners), exceptionListeners);
    assert e1 + [Resume(ByListeners)] == [ListenersEnd(None), Resume(ByListeners)];
    PassthroughEnds(None, e1 + [Resume(ByListeners)], None, exceptionListeners);
  }

  /**
   The exception listeners are done: what they threw rejects the handler; if they made the
   request their own, it returns; otherwise the error becomes a server error, if it still can.
   */
  lemma {:induction false} ExceptionOutcome(signal: Option<Value>, events: seq<Event>, thrown: Option<Value>, exceptionListeners: bool)
    requires Run(signal, events, exceptionListeners).stage.Unhandled?
    ensures var h, h' := Run(signal, events, exceptionListeners), After(signal, events, UnhandledEnd(thrown), exceptionListeners);
            && h.nested.Some?
            && (thrown.Some? ==> h'.stage == Over(Rejected(thrown.value)) && h'.outer == h.outer)
            && (thrown.None? && h.nested.value.state != Unsettled ==> h'.stage == Over(Returned) && h'.outer == h.outer)
            && (thrown.None? && h.nested.value.state == Unsettled ==>
                  if h.outer.state == Unsettled
                  then h'.outer.calls == [RespondWith(ServerError(h.stage.error))] && h'.stage == Over(Returned)
                  else h'.outer == h.outer && h'.stage == Over(Rejected(Refusal)))
  {
    AfterIsStep(signal, events, UnhandledEnd(thrown), exceptionListeners);
  }
}
