/** The behaviour of the dispatch stage as functions from the ambient state before to
    the ambient state after, together with how the step ended. The class in
    InvokeHandlers runs the same steps in place and is proved equal to these. */
module Dispatch {
  import opened HandlerModel

  /** The mutable cells the stage reads and writes: the message currently being
      handled, the current saga, the chain-aborted flag of the behaviour context, and
      the events so far. */
  datatype Ambient = Ambient(
    currentMessage: Option<Message>,
    currentSaga: Option<Instance>,
    chainAborted: bool,
    trace: seq<Event>)

  /** How one handler's turn ends: go on with the next handler, stop this message's
      chain because the flag is set, or fail. */
  datatype Step = Continue | StopChain | Fail(error: Error)

  /** One call into handler code: it sees the ambient cells as they are, and an
      aborting outcome sets the chain-aborted flag. */
  function Call(s: Ambient, h: Instance, m: Message, via: Via, o: CallOutcome): Ambient
  {
    s.(trace := s.trace + [Called(h, m, via, s.currentSaga, s.currentMessage)],
       chainAborted := s.chainAborted || o.ReturnsAborting?)
  }

  /** Runs the materialised dispatch actions ds[i..] in order; the first one that throws
      ends the run and its cause is returned. */
  function RunDispatchers(s: Ambient, h: Instance, m: Message, ds: seq<CallOutcome>, i: nat): (Ambient, Option<Cause>)
    requires i <= |ds|
    decreases |ds| - i
  {
    if i == |ds| then (s, None)
    else
      var t := Call(s, h, m, Dispatcher(i), ds[i]);
      if ds[i].Throws? then (t, Some(ds[i].cause)) else RunDispatchers(t, h, m, ds, i + 1)
  }

  /** The abort check made after a handler finished without throwing. */
  function AbortCheck(s: Ambient): Step
  {
    if s.chainAborted then StopChain else Continue
  }

  /** The body of the try block of an enabled handler's turn, after the saga cell is set:
      resolve the factory, then either run its actions (wrapping a failure) or invoke
      the handler directly (not wrapping one), then check the flag. */
  function TurnBody(s: Ambient, b: HandlerBinding, m: Message, cfg: Config): (Ambient, Step)
  {
    var handlerType := b.instance.handlerType;
    match GetDispatcherFactoryFor(handlerType, cfg)
    case Misconfigured(e) => (s, Fail(e))
    case Factory(getDispatcher) =>
      var run := RunDispatchers(s, b.instance, m, getDispatcher(handlerType, m), 0);
      if run.1.Some? then (run.0, Fail(HandlingFailed(run.1.value))) else (run.0, AbortCheck(run.0))
    case NoFactory =>
      var o := b.invocation(m);
      var t := Call(s, b.instance, m, Invocation, o);
      if o.Throws? then (t, Fail(Unwrapped(o.cause))) else (t, AbortCheck(t))
  }

  /** One binding's turn: a disabled binding is skipped; an enabled one runs with the
      saga cell set to its instance when it is a saga, and the cell is cleared on
      every way out. */
  function HandlerTurn(s: Ambient, b: HandlerBinding, m: Message, cfg: Config): (Ambient, Step)
  {
    if b.invocationDisabled then (s, Continue)
    else
      var entered := if b.instance.isSaga then s.(currentSaga := Some(b.instance)) else s;
      var body := TurnBody(entered, b, m, cfg);
      (body.0.(currentSaga := None), body.1)
  }

  /** The handler chain of one message, in the order the directory yields it. */
  function DispatchToHandlers(s: Ambient, bs: seq<HandlerBinding>, m: Message, cfg: Config): (Ambient, Option<Error>)
    decreases |bs|
  {
    if bs == [] then (s, None)
    else
      var turn := HandlerTurn(s, bs[0], m, cfg);
      match turn.1
      case Continue => DispatchToHandlers(turn.0, bs[1..], m, cfg)
      case StopChain => (turn.0, None)
      case Fail(e) => (turn.0, Some(e))
  }

  /** The message loop: each message becomes the current one and is dispatched to the
      handlers for its type; a failure ends the loop. */
  function HandleMessages(s: Ambient, ms: seq<Message>, cfg: Config): (Ambient, Option<Error>)
    decreases |ms|
  {
    if ms == [] then (s, None)
    else
      var m := ms[0];
      var chain := DispatchToHandlers(s.(currentMessage := Some(m)), cfg.handlersFor(m.messageType), m, cfg);
      if chain.1.Some? then chain else HandleMessages(chain.0, ms[1..], cfg)
  }

  /** The whole stage: a missing message list is an argument error; otherwise the
      messages are handled, and only when all of them went through is the current
      message cleared and the next stage called. */
  function InvokeHandlers(s: Ambient, messages: Option<seq<Message>>, cfg: Config): (Ambient, Outcome)
  {
    match messages
    case None => (s, Raised(MessagesNotSet))
    case Some(ms) =>
      var loop := HandleMessages(s, ms, cfg);
      if loop.1.Some? then (loop.0, Raised(loop.1.value))
      else (loop.0.(currentMessage := None, trace := loop.0.trace + [NextCalled]), Done)
  }
}
