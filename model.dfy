/** The values the message-dispatch stage works on: messages, handler bindings,
    the outcome of a call into handler code, the dispatcher-factory configuration,
    the errors the stage raises and the events it leaves behind. Reflection and the
    dependency-injection container are replaced by explicit data. */
module HandlerModel {

  /** A runtime type, reduced to an identifier. */
  type TypeId = nat

  /** The identity of an exception thrown by handler code. */
  type Cause = nat

  datatype Option<+T> = None | Some(value: T)

  /** A message of the unit of work: its identity and its runtime type. */
  datatype Message = Message(id: nat, messageType: TypeId)

  /** A handler instance: its identity, its concrete type and whether it is a saga. */
  datatype Instance = Instance(id: nat, handlerType: TypeId, isSaga: bool)

  /** What one call into handler code (a direct invocation or one dispatch action) does:
      return normally, return after setting the chain-aborted flag, or throw. */
  datatype CallOutcome = Returns | ReturnsAborting | Throws(cause: Cause)

  /** One loaded handler for a message type: the instance, the disabled flag and the
      pre-bound invocation delegate, given as the outcome of calling it on a message. */
  datatype HandlerBinding = HandlerBinding(
    instance: Instance,
    invocationDisabled: bool,
    invocation: Message -> CallOutcome)

  /** What building a registered factory type yields: something that is not a
      dispatcher factory, or a factory producing the dispatch actions for a handler
      type and a message. */
  datatype Built =
    | NotADispatcherFactory
    | DispatcherFactory(getDispatcher: (TypeId, Message) -> seq<CallOutcome>)

  /** The collaborators: the loaded handlers per message type, the bus's dispatcher
      mappings (handler type to factory type) and the container that builds a type. */
  datatype Config = Config(
    handlersFor: TypeId -> seq<HandlerBinding>,
    dispatcherMappings: map<TypeId, TypeId>,
    build: TypeId -> Built)

  /** The failures the stage lets its caller see. */
  datatype Error =
    | MessagesNotSet                                             // the argument error on a missing message list
    | InvalidDispatcherFactory(factoryType: TypeId, handlerType: TypeId)  // the invalid-operation error
    | HandlingFailed(cause: Cause)                               // a dispatch action threw; the cause is wrapped
    | Unwrapped(cause: Cause)                                    // a direct invocation threw; passed on as is

  datatype Outcome = Done | Raised(error: Error)

  /** How a handler type is to be dispatched to. */
  datatype Resolution =
    | NoFactory
    | Factory(getDispatcher: (TypeId, Message) -> seq<CallOutcome>)
    | Misconfigured(error: Error)

  /** How a call into handler code was made. */
  datatype Via = Invocation | Dispatcher(index: nat)

  /** What the stage does that can be observed from outside: a call into handler code,
      recorded with the ambient saga and current message that code sees, and the call
      to the next stage of the pipeline. */
  datatype Event =
    | Called(handler: Instance, message: Message, via: Via, saga: Option<Instance>, current: Option<Message>)
    | NextCalled

  /** Looks the handler type up in the dispatcher mappings; a mapped factory type is
      built and must turn out to be a dispatcher factory. */
  function GetDispatcherFactoryFor(handlerType: TypeId, cfg: Config): (r: Resolution)
    ensures r.NoFactory? <==> handlerType !in cfg.dispatcherMappings
    ensures r.Misconfigured? <==>
      handlerType in cfg.dispatcherMappings && cfg.build(cfg.dispatcherMappings[handlerType]).NotADispatcherFactory?
    ensures r.Misconfigured? ==>
      r.error == InvalidDispatcherFactory(cfg.dispatcherMappings[handlerType], handlerType)
    ensures r.Factory? ==>
      handlerType in cfg.dispatcherMappings &&
      cfg.build(cfg.dispatcherMappings[handlerType]).DispatcherFactory? &&
      r.getDispatcher == cfg.build(cfg.dispatcherMappings[handlerType]).getDispatcher
  {
    if handlerType !in cfg.dispatcherMappings then NoFactory
    else
      var factoryType := cfg.dispatcherMappings[handlerType];
      match cfg.build(factoryType)
      case NotADispatcherFactory => Misconfigured(InvalidDispatcherFactory(factoryType, handlerType))
      case DispatcherFactory(getDispatcher) => Factory(getDispatcher)
  }
}
