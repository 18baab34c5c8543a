/** The dispatch stage as it runs: an object holding the ambient cells, whose methods
    update them in place with the loops and the try/finally scoping of the NServiceBus code, and
    are proved to end in the state the functions of Dispatch describe. */
module InvokeHandlers {
  import opened HandlerModel
  import opened Dispatch
  import opened DispatchProperties

  class InvokeHandlersBehavior {
    /** The message currently being handled (a static cell in the NServiceBus code). */
    var currentMessageBeingHandled: Option<Message>
    /** The current saga (a static cell in the NServiceBus code). */
    var sagaCurrent: Option<Instance>
    /** The chain-aborted flag of the behaviour context. */
    var chainAborted: bool
    /** The calls made so far into handler code and to the next stage. */
    var trace: seq<Event>

    function State(): Ambient
      reads this
    {
      Ambient(currentMessageBeingHandled, sagaCurrent, chainAborted, trace)
    }

    constructor ()
      ensures State() == Ambient(None, None, false, [])
    {
      currentMessageBeingHandled, sagaCurrent, chainAborted, trace := None, None, false, [];
    }

    /** One call into handler code with the given outcome. */
    method CallHandlerCode(h: Instance, m: Message, via: Via, o: CallOutcome)
      modifies this
      ensures State() == Call(old(State()), h, m, via, o)
    {
      trace := trace + [Called(h, m, via, sagaCurrent, currentMessageBeingHandled)];
      if o.ReturnsAborting? {
        chainAborted := true;
      }
    }

    /** Runs the materialised dispatch actions in order; the first that throws ends the
        run and its cause is returned for wrapping. */
    method ForEachDispatcher(h: Instance, m: Message, dispatchers: seq<CallOutcome>) returns (thrown: Option<Cause>)
      modifies this
      ensures (State(), thrown) == RunDispatchers(old(State()), h, m, dispatchers, 0)
    {
      var i := 0;
      while i < |dispatchers|
        invariant i <= |dispatchers|
        invariant RunDispatchers(State(), h, m, dispatchers, i) == RunDispatchers(old(State()), h, m, dispatchers, 0)
      {
        CallHandlerCode(h, m, Dispatcher(i), dispatchers[i]);
        if dispatchers[i].Throws? {
          return Some(dispatchers[i].cause);
        }
        i := i + 1;
      }
      return None;
    }

    /** The try/finally around an enabled handler: set the saga cell for a saga, dispatch
        through the factory or directly, check the flag, and clear the saga cell on every
        way out. */
    method InvokeEnabledHandler(b: HandlerBinding, m: Message, cfg: Config) returns (step: Step)
      requires !b.invocationDisabled
      modifies this
      ensures (State(), step) == HandlerTurn(old(State()), b, m, cfg)
      ensures sagaCurrent == None
    {
      if b.instance.isSaga {
        sagaCurrent := Some(b.instance);
      }
      var handlerTypeToInvoke := b.instance.handlerType;
      var factory := GetDispatcherFactoryFor(handlerTypeToInvoke, cfg);
      match factory {
        case Misconfigured(e) =>
          step := Fail(e);
        case Factory(getDispatcher) =>
          var dispatchers := getDispatcher(handlerTypeToInvoke, m);
          var thrown := ForEachDispatcher(b.instance, m, dispatchers);
          if thrown.Some? {
            step := Fail(HandlingFailed(thrown.value));
          } else {
            step := if chainAborted then StopChain else Continue;
          }
        case NoFactory =>
          var o := b.invocation(m);
          CallHandlerCode(b.instance, m, Invocation, o);
          if o.Throws? {
            step := Fail(Unwrapped(o.cause));
          } else {
            step := if chainAborted then StopChain else Continue;
          }
      }
      sagaCurrent := None;
    }

    /** The handler loop of one message: skip disabled bindings, give each enabled one its
        turn in directory order, leave the loop when the flag is set, and pass a failure on. */
    method DispatchMessageToHandlersBasedOnType(m: Message, cfg: Config) returns (err: Option<Error>)
      modifies this
      ensures (State(), err) == DispatchToHandlers(old(State()), cfg.handlersFor(m.messageType), m, cfg)
    {
      var handlers := cfg.handlersFor(m.messageType);
      var i := 0;
      while i < |handlers|
        invariant i <= |handlers|
        invariant DispatchToHandlers(State(), handlers[i..], m, cfg) ==
                  DispatchToHandlers(old(State()), handlers, m, cfg)
      {
        var loadedHandler := handlers[i];
        assert handlers[i..][0] == loadedHandler && handlers[i..][1..] == handlers[i + 1..];
        if loadedHandler.invocationDisabled {
          i := i + 1;
          continue;
        }
        var step := InvokeEnabledHandler(loadedHandler, m, cfg);
        match step {
          case StopChain => return None;
          case Fail(e) => return Some(e);
          case Continue =>
        }
        i := i + 1;
      }
      return None;
    }

    /** The stage: refuse a missing message list before touching anything; otherwise make
        each message current in turn and dispatch it; when all went through, clear the
        current message and call the next stage once. */
    method Invoke(messages: Option<seq<Message>>, cfg: Config) returns (r: Outcome)
      modifies this
      ensures (State(), r) == InvokeHandlers(old(State()), messages, cfg)
      ensures messages.None? ==> r == Raised(MessagesNotSet) && State() == old(State())
      ensures r == Done ==>
                currentMessageBeingHandled == None && trace[|trace| - 1] == NextCalled &&
                Nexts(trace) == Nexts(old(trace)) + 1
      ensures r.Raised? ==> Nexts(trace) == Nexts(old(trace))
      ensures messages.Some? && r.Raised? ==>
                !r.error.MessagesNotSet? &&
                currentMessageBeingHandled.Some? && currentMessageBeingHandled.value in messages.value
      ensures old(sagaCurrent) == None && SagaScopedTrace(old(trace)) ==>
                sagaCurrent == None && SagaScopedTrace(trace)
    {
      ghost var s0 := State();
      if messages.None? {
        return Raised(MessagesNotSet);
      }
      var ms := messages.value;
      var i := 0;
      while i < |ms|
        invariant i <= |ms|
        invariant HandleMessages(State(), ms[i..], cfg) == HandleMessages(old(State()), ms, cfg)
      {
        var messageToHandle := ms[i];
        assert ms[i..][0] == messageToHandle && ms[i..][1..] == ms[i + 1..];
        currentMessageBeingHandled := Some(messageToHandle);
        var err := DispatchMessageToHandlersBasedOnType(messageToHandle, cfg);
        if err.Some? {
          r := Raised(err.value);
          InvokeHandlersScope(s0, messages, cfg);
          InvokeHandlersEvents(s0, messages, cfg);
          return;
        }
        i := i + 1;
      }
      currentMessageBeingHandled := None;
      trace := trace + [NextCalled];
      r := Done;
      InvokeHandlersScope(s0, messages, cfg);
      InvokeHandlersEvents(s0, messages, cfg);
    }
  }
}
