/** What the dispatch stage promises, proved about the functions of Dispatch: the order
    in which handler code is called, the effect of the chain-aborted flag, the scope of
    the ambient saga and message cells, the wrapping of failures, and the single call
    to the next stage. */
module DispatchProperties {
  import opened HandlerModel
  import opened Dispatch

  // ---------------------------------------------------------------------------
  // Observing a trace
  // ---------------------------------------------------------------------------

  /** A call into handler code without the ambient values it saw. */
  datatype CallSite = CallSite(handler: Instance, message: Message, via: Via)

  function Sites(e: Event): seq<CallSite>
  {
    if e.Called? then [CallSite(e.handler, e.message, e.via)] else []
  }

  /** The calls into handler code recorded in a trace, in order. */
  function Calls(tr: seq<Event>): seq<CallSite>
    decreases |tr|
  {
    if tr == [] then [] else Calls(tr[..|tr| - 1]) + Sites(tr[|tr| - 1])
  }

  /** How many times the next stage was called in a trace. */
  function Nexts(tr: seq<Event>): nat
    decreases |tr|
  {
    if tr == [] then 0 else Nexts(tr[..|tr| - 1]) + (if tr[|tr| - 1].NextCalled? then 1 else 0)
  }

  lemma AppendEvent(tr: seq<Event>, e: Event)
    ensures Calls(tr + [e]) == Calls(tr) + Sites(e)
    ensures Nexts(tr + [e]) == Nexts(tr) + (if e.NextCalled? then 1 else 0)
  {
    assert (tr + [e])[..|tr|] == tr;
  }

  lemma ConcatAssoc<T>(x: seq<T>, y: seq<T>, z: seq<T>)
    ensures x + (y + z) == (x + y) + z
  {
  }

  lemma ConcatHead<T>(x: seq<T>, y: seq<T>)
    requires x != []
    ensures x + y == [x[0]] + (x[1..] + y)
  {
    assert x == [x[0]] + x[1..];
    ConcatAssoc([x[0]], x[1..], y);
  }

  /** The saga a call into the code of h sees when the cell held prev before the turn. */
  function SagaSeen(h: Instance, prev: Option<Instance>): Option<Instance>
  {
    if h.isSaga then Some(h) else prev
  }

  /** The call was made with the saga cell holding the handler exactly when it is a saga. */
  predicate SagaScoped(e: Event)
  {
    e.Called? ==> e.saga == (if e.handler.isSaga then Some(e.handler) else None)
  }

  /** Every call recorded in the trace saw the saga cell set exactly for saga handlers. */
  ghost predicate SagaScopedTrace(tr: seq<Event>)
  {
    forall k :: 0 <= k < |tr| ==> SagaScoped(tr[k])
  }

  /** after extends before by calls into h for m only, all seeing the given ambient values. */
  ghost predicate AppendedCalls(before: seq<Event>, after: seq<Event>, h: Instance, m: Message,
                                saga: Option<Instance>, current: Option<Message>)
  {
    before <= after &&
    forall k :: |before| <= k < |after| ==>
      after[k].Called? && after[k].handler == h && after[k].message == m &&
      after[k].saga == saga && after[k].current == current
  }

  // ---------------------------------------------------------------------------
  // The dispatch actions of a factory
  // ---------------------------------------------------------------------------

  /** The index of the first throwing action in ds[i..], or |ds| when none throws. */
  function FirstThrow(ds: seq<CallOutcome>, i: nat): (k: nat)
    requires i <= |ds|
    ensures i <= k <= |ds|
    ensures k < |ds| ==> ds[k].Throws?
    decreases |ds| - i
  {
    if i == |ds| || ds[i].Throws? then i else FirstThrow(ds, i + 1)
  }

  /** No action of ds[i..] before FirstThrow(ds, i) throws. */
  lemma {:induction false} FirstThrowIsFirst(ds: seq<CallOutcome>, i: nat)
    requires i <= |ds|
    ensures forall j :: i <= j < FirstThrow(ds, i) ==> !ds[j].Throws?
    decreases |ds| - i
  {
    if i < |ds| && !ds[i].Throws? {
      FirstThrowIsFirst(ds, i + 1);
    }
  }

  /** One past the last action of ds[i..] that runs: the first throwing one included. */
  function RunEnd(ds: seq<CallOutcome>, i: nat): nat
    requires i <= |ds|
  {
    var k := FirstThrow(ds, i);
    if k < |ds| then k + 1 else |ds|
  }

  /** Some action of ds[i..n] sets the chain-aborted flag. */
  predicate AbortsIn(ds: seq<CallOutcome>, i: nat, n: nat)
    requires i <= n <= |ds|
    decreases n - i
  {
    i < n && (ds[i].ReturnsAborting? || AbortsIn(ds, i + 1, n))
  }

  /** The call sites of the actions i .. n-1 of handler h for message m. */
  function ActionSites(h: Instance, m: Message, i: nat, n: nat): seq<CallSite>
    decreases n - i
  {
    if n <= i then [] else [CallSite(h, m, Dispatcher(i))] + ActionSites(h, m, i + 1, n)
  }

  /** Running ds[i..] from an action that does not throw is that action's call followed
      by the run of ds[i + 1..], which ends where the run of ds[i..] ends. */
  lemma RunDispatchersStep(s: Ambient, h: Instance, m: Message, ds: seq<CallOutcome>, i: nat)
    requires i < |ds| && !ds[i].Throws?
    ensures RunDispatchers(s, h, m, ds, i) == RunDispatchers(Call(s, h, m, Dispatcher(i), ds[i]), h, m, ds, i + 1)
    ensures FirstThrow(ds, i) == FirstThrow(ds, i + 1)
    ensures RunEnd(ds, i) == RunEnd(ds, i + 1) >= i + 1
  {
  }

  lemma {:induction false} RunDispatchersCalls(s: Ambient, h: Instance, m: Message, ds: seq<CallOutcome>, i: nat)
    requires i <= |ds|
    ensures Calls(RunDispatchers(s, h, m, ds, i).0.trace) == Calls(s.trace) + ActionSites(h, m, i, RunEnd(ds, i))
    decreases |ds| - i
  {
    if i < |ds| {
      var t1 := Call(s, h, m, Dispatcher(i), ds[i]);
      assert Calls(t1.trace) == Calls(s.trace) + [CallSite(h, m, Dispatcher(i))] by {
        AppendEvent(s.trace, Called(h, m, Dispatcher(i), s.currentSaga, s.currentMessage));
      }
      if ds[i].Throws? {
        assert ActionSites(h, m, i, i + 1) == [CallSite(h, m, Dispatcher(i))] + ActionSites(h, m, i + 1, i + 1);
      } else {
        RunDispatchersStep(s, h, m, ds, i);
        RunDispatchersCalls(t1, h, m, ds, i + 1);
      }
    }
  }

  lemma {:induction false} RunDispatchersFlag(s: Ambient, h: Instance, m: Message, ds: seq<CallOutcome>, i: nat)
    requires i <= |ds|
    ensures RunDispatchers(s, h, m, ds, i).0.chainAborted == (s.chainAborted || AbortsIn(ds, i, RunEnd(ds, i)))
    decreases |ds| - i
  {
    if i < |ds| && !ds[i].Throws? {
      RunDispatchersStep(s, h, m, ds, i);
      RunDispatchersFlag(Call(s, h, m, Dispatcher(i), ds[i]), h, m, ds, i + 1);
    }
  }

  lemma {:induction false} RunDispatchersCause(s: Ambient, h: Instance, m: Message, ds: seq<CallOutcome>, i: nat)
    requires i <= |ds|
    ensures RunDispatchers(s, h, m, ds, i).1 ==
            (if FirstThrow(ds, i) < |ds| then Some(ds[FirstThrow(ds, i)].cause) else None)
    decreases |ds| - i
  {
    if i < |ds| && !ds[i].Throws? {
      RunDispatchersStep(s, h, m, ds, i);
      RunDispatchersCause(Call(s, h, m, Dispatcher(i), ds[i]), h, m, ds, i + 1);
    }
  }

  /** The actions are run in order up to and including the first that throws, whose cause
      is reported; none after it runs, and the flag is set when one of those that ran
      set it. */
  lemma RunDispatchersStopsAtFirstThrow(s: Ambient, h: Instance, m: Message, ds: seq<CallOutcome>, i: nat)
    requires i <= |ds|
    ensures RunDispatchers(s, h, m, ds, i).1 ==
            (if FirstThrow(ds, i) < |ds| then Some(ds[FirstThrow(ds, i)].cause) else None)
    ensures Calls(RunDispatchers(s, h, m, ds, i).0.trace) == Calls(s.trace) + ActionSites(h, m, i, RunEnd(ds, i))
    ensures RunDispatchers(s, h, m, ds, i).0.chainAborted == (s.chainAborted || AbortsIn(ds, i, RunEnd(ds, i)))
  {
    RunDispatchersCause(s, h, m, ds, i);
    RunDispatchersCalls(s, h, m, ds, i);
    RunDispatchersFlag(s, h, m, ds, i);
  }

  /** The actions see the ambient cells as they were, leave them so, and add only calls of
      this handler for this message. */
  lemma {:induction false} RunDispatchersScope(s: Ambient, h: Instance, m: Message, ds: seq<CallOutcome>, i: nat)
    requires i <= |ds|
    ensures RunDispatchers(s, h, m, ds, i).0.currentSaga == s.currentSaga
    ensures RunDispatchers(s, h, m, ds, i).0.currentMessage == s.currentMessage
    ensures s.chainAborted ==> RunDispatchers(s, h, m, ds, i).0.chainAborted
    ensures Nexts(RunDispatchers(s, h, m, ds, i).0.trace) == Nexts(s.trace)
    ensures AppendedCalls(s.trace, RunDispatchers(s, h, m, ds, i).0.trace, h, m, s.currentSaga, s.currentMessage)
    decreases |ds| - i
  {
    if i < |ds| {
      var t1 := Call(s, h, m, Dispatcher(i), ds[i]);
      assert Nexts(t1.trace) == Nexts(s.trace) by {
        AppendEvent(s.trace, Called(h, m, Dispatcher(i), s.currentSaga, s.currentMessage));
      }
      if !ds[i].Throws? {
        assert RunDispatchers(s, h, m, ds, i) == RunDispatchers(t1, h, m, ds, i + 1);
        RunDispatchersScope(t1, h, m, ds, i + 1);
      }
    }
  }

  // ---------------------------------------------------------------------------
  // One handler's turn
  // ---------------------------------------------------------------------------

  /** How an enabled handler's turn ends on each dispatch path: an invalid factory fails
      before any action runs; a factory runs its actions up to the first that throws and
      wraps that failure; a direct invocation that throws is passed on unwrapped; a turn
      that does not throw ends with the abort check. */
  lemma HandlerTurnResult(s: Ambient, b: HandlerBinding, m: Message, cfg: Config)
    requires !b.invocationDisabled
    ensures var (t, step) := HandlerTurn(s, b, m, cfg);
            var ht := b.instance.handlerType;
            var res := GetDispatcherFactoryFor(ht, cfg);
            (res.Misconfigured? ==>
               step == Fail(InvalidDispatcherFactory(cfg.dispatcherMappings[ht], ht)) &&
               t.trace == s.trace && t.chainAborted == s.chainAborted) &&
            (res.NoFactory? ==>
               var o := b.invocation(m);
               Calls(t.trace) == Calls(s.trace) + [CallSite(b.instance, m, Invocation)] &&
               t.chainAborted == (s.chainAborted || o.ReturnsAborting?) &&
               step == (if o.Throws? then Fail(Unwrapped(o.cause)) else AbortCheck(t))) &&
            (res.Factory? ==>
               var ds := res.getDispatcher(ht, m);
               var k := FirstThrow(ds, 0);
               Calls(t.trace) == Calls(s.trace) + ActionSites(b.instance, m, 0, RunEnd(ds, 0)) &&
               t.chainAborted == (s.chainAborted || AbortsIn(ds, 0, RunEnd(ds, 0))) &&
               step == (if k < |ds| then Fail(HandlingFailed(ds[k].cause)) else AbortCheck(t)))
  {
    var entered := if b.instance.isSaga then s.(currentSaga := Some(b.instance)) else s;
    var ht := b.instance.handlerType;
    var res := GetDispatcherFactoryFor(ht, cfg);
    if res.NoFactory? {
      AppendEvent(s.trace, Called(b.instance, m, Invocation, entered.currentSaga, s.currentMessage));
    } else if res.Factory? {
      RunDispatchersStopsAtFirstThrow(entered, b.instance, m, res.getDispatcher(ht, m), 0);
    }
  }

  /** The try block of a turn leaves the ambient cells as it found them, never clears the
      flag, and adds only calls of this handler for this message, which see the cells as
      they were on entry. */
  lemma TurnBodyScope(s: Ambient, b: HandlerBinding, m: Message, cfg: Config)
    ensures TurnBody(s, b, m, cfg).0.currentSaga == s.currentSaga
    ensures TurnBody(s, b, m, cfg).0.currentMessage == s.currentMessage
    ensures s.chainAborted ==> TurnBody(s, b, m, cfg).0.chainAborted
    ensures TurnBody(s, b, m, cfg).1.Fail? ==> !TurnBody(s, b, m, cfg).1.error.MessagesNotSet?
    ensures Nexts(TurnBody(s, b, m, cfg).0.trace) == Nexts(s.trace)
    ensures AppendedCalls(s.trace, TurnBody(s, b, m, cfg).0.trace, b.instance, m, s.currentSaga, s.currentMessage)
  {
    var ht := b.instance.handlerType;
    var res := GetDispatcherFactoryFor(ht, cfg);
    if res.NoFactory? {
      AppendEvent(s.trace, Called(b.instance, m, Invocation, s.currentSaga, s.currentMessage));
    } else if res.Factory? {
      RunDispatchersScope(s, b.instance, m, res.getDispatcher(ht, m), 0);
    }
  }

  /** The ambient cells around an enabled handler's turn: its code sees the handler as the
      current saga when it is one, the current message is left alone, the saga cell is
      empty afterwards on every way out, the flag is never cleared, and the turn adds only
      calls of this handler for this message. */
  lemma HandlerTurnScope(s: Ambient, b: HandlerBinding, m: Message, cfg: Config)
    requires !b.invocationDisabled
    ensures HandlerTurn(s, b, m, cfg).0.currentSaga == None
    ensures HandlerTurn(s, b, m, cfg).0.currentMessage == s.currentMessage
    ensures s.chainAborted ==> HandlerTurn(s, b, m, cfg).0.chainAborted
    ensures HandlerTurn(s, b, m, cfg).1.Fail? ==> !HandlerTurn(s, b, m, cfg).1.error.MessagesNotSet?
    ensures Nexts(HandlerTurn(s, b, m, cfg).0.trace) == Nexts(s.trace)
    ensures AppendedCalls(s.trace, HandlerTurn(s, b, m, cfg).0.trace, b.instance, m,
                          SagaSeen(b.instance, s.currentSaga), s.currentMessage)
  {
    var entered := if b.instance.isSaga then s.(currentSaga := Some(b.instance)) else s;
    TurnBodyScope(entered, b, m, cfg);
  }

  // ---------------------------------------------------------------------------
  // The reference plan: which handlers get a turn when nothing throws
  // ---------------------------------------------------------------------------

  /** The turn of b on m throws nothing and its factory, if any, is valid. */
  predicate Succeeds(b: HandlerBinding, m: Message, cfg: Config)
  {
    var ht := b.instance.handlerType;
    match GetDispatcherFactoryFor(ht, cfg)
    case Misconfigured(_) => false
    case NoFactory => !b.invocation(m).Throws?
    case Factory(getDispatcher) => FirstThrow(getDispatcher(ht, m), 0) == |getDispatcher(ht, m)|
  }

  /** The code run in the turn of b on m sets the chain-aborted flag. */
  predicate SetsAbort(b: HandlerBinding, m: Message, cfg: Config)
  {
    var ht := b.instance.handlerType;
    match GetDispatcherFactoryFor(ht, cfg)
    case Misconfigured(_) => false
    case NoFactory => b.invocation(m).ReturnsAborting?
    case Factory(getDispatcher) => AbortsIn(getDispatcher(ht, m), 0, RunEnd(getDispatcher(ht, m), 0))
  }

  /** The failure the turn of b on m ends with, if any: the invalid-factory error, the
      wrapped cause of the first throwing action, or the unwrapped cause of a throwing
      direct invocation. */
  function TurnError(b: HandlerBinding, m: Message, cfg: Config): (r: Option<Error>)
    ensures r.None? <==> Succeeds(b, m, cfg)
    ensures r.Some? ==> !r.value.MessagesNotSet?
  {
    var ht := b.instance.handlerType;
    match GetDispatcherFactoryFor(ht, cfg)
    case Misconfigured(e) => Some(e)
    case NoFactory =>
      var o := b.invocation(m);
      if o.Throws? then Some(Unwrapped(o.cause)) else None
    case Factory(getDispatcher) =>
      var ds := getDispatcher(ht, m);
      var k := FirstThrow(ds, 0);
      if k < |ds| then Some(HandlingFailed(ds[k].cause)) else None
  }

  /** The calls made in the turn of b on m: none for an invalid factory, the direct
      invocation, or the factory's actions up to and including the first that throws. */
  function TurnCalls(b: HandlerBinding, m: Message, cfg: Config): seq<CallSite>
  {
    var ht := b.instance.handlerType;
    match GetDispatcherFactoryFor(ht, cfg)
    case Misconfigured(_) => []
    case NoFactory => [CallSite(b.instance, m, Invocation)]
    case Factory(getDispatcher) => ActionSites(b.instance, m, 0, RunEnd(getDispatcher(ht, m), 0))
  }

  /** The bindings that are not disabled, in directory order. */
  function Enabled(bs: seq<HandlerBinding>): seq<HandlerBinding>
    decreases |bs|
  {
    if bs == [] then []
    else if bs[0].invocationDisabled then Enabled(bs[1..])
    else [bs[0]] + Enabled(bs[1..])
  }

  /** The bindings of bs that get a turn for m when none throws: the enabled ones in
      order, up to and including the first after which the flag is set. */
  function Planned(bs: seq<HandlerBinding>, m: Message, cfg: Config, aborted: bool): seq<HandlerBinding>
    decreases |bs|
  {
    if bs == [] then []
    else if bs[0].invocationDisabled then Planned(bs[1..], m, cfg, aborted)
    else [bs[0]] + (if aborted || SetsAbort(bs[0], m, cfg) then [] else Planned(bs[1..], m, cfg, aborted))
  }

  /** Some binding of ps sets the flag. */
  predicate AnyAborts(ps: seq<HandlerBinding>, m: Message, cfg: Config)
    decreases |ps|
  {
    ps != [] && (SetsAbort(ps[0], m, cfg) || AnyAborts(ps[1..], m, cfg))
  }

  /** The calls made by the turns of ps, in order. */
  function CallsOf(ps: seq<HandlerBinding>, m: Message, cfg: Config): seq<CallSite>
    decreases |ps|
  {
    if ps == [] then [] else TurnCalls(ps[0], m, cfg) + CallsOf(ps[1..], m, cfg)
  }

  /** The calls made for the messages ms when none throws: message after message, each
      with its planned handlers; the flag carries over from one message to the next. */
  function PlannedCalls(ms: seq<Message>, cfg: Config, aborted: bool): seq<CallSite>
    decreases |ms|
  {
    if ms == [] then []
    else
      var p := Planned(cfg.handlersFor(ms[0].messageType), ms[0], cfg, aborted);
      CallsOf(p, ms[0], cfg) + PlannedCalls(ms[1..], cfg, aborted || AnyAborts(p, ms[0], cfg))
  }

  /** No turn of the bindings ps on m throws. */
  predicate PlanSucceeds(ps: seq<HandlerBinding>, m: Message, cfg: Config)
    decreases |ps|
  {
    ps == [] || (Succeeds(ps[0], m, cfg) && PlanSucceeds(ps[1..], m, cfg))
  }

  /** No handler of the chain of bs that gets a turn for m throws; handlers skipped
      because the flag is set may do anything. */
  predicate ChainSucceeds(bs: seq<HandlerBinding>, m: Message, cfg: Config, aborted: bool)
  {
    PlanSucceeds(Planned(bs, m, cfg, aborted), m, cfg)
  }

  /** The flag after the messages ms went through without failure, starting from aborted. */
  function FlagAfter(ms: seq<Message>, cfg: Config, aborted: bool): bool
    decreases |ms|
  {
    if ms == [] then aborted
    else
      var p := Planned(cfg.handlersFor(ms[0].messageType), ms[0], cfg, aborted);
      FlagAfter(ms[1..], cfg, aborted || AnyAborts(p, ms[0], cfg))
  }

  /** No handler that gets a turn for any message of ms throws, the flag carrying over
      from one message to the next. */
  predicate AllSucceed(ms: seq<Message>, cfg: Config, aborted: bool)
    decreases |ms|
  {
    ms == [] ||
    (var p := Planned(cfg.handlersFor(ms[0].messageType), ms[0], cfg, aborted);
     ChainSucceeds(cfg.handlersFor(ms[0].messageType), ms[0], cfg, aborted) &&
     AllSucceed(ms[1..], cfg, aborted || AnyAborts(p, ms[0], cfg)))
  }

  /** The chain of bs on m reaches its planned turn j, all planned turns before it
      throwing nothing, and that turn fails. */
  ghost predicate FailsAt(bs: seq<HandlerBinding>, m: Message, cfg: Config, aborted: bool, j: nat)
  {
    var p := Planned(bs, m, cfg, aborted);
    j < |p| && (forall l :: 0 <= l < j ==> Succeeds(p[l], m, cfg)) && !Succeeds(p[j], m, cfg)
  }

  /** Without a flag set, every enabled handler gets a turn, in directory order. */
  lemma {:induction false} UnabortedChainRunsAllEnabled(bs: seq<HandlerBinding>, m: Message, cfg: Config)
    requires !AnyAborts(Enabled(bs), m, cfg)
    ensures Planned(bs, m, cfg, false) == Enabled(bs)
    decreases |bs|
  {
    if bs != [] {
      if !bs[0].invocationDisabled {
        assert ([bs[0]] + Enabled(bs[1..]))[1..] == Enabled(bs[1..]);
      }
      UnabortedChainRunsAllEnabled(bs[1..], m, cfg);
    }
  }

  /** The first enabled handler that sets the flag is the last to get a turn. */
  lemma {:induction false} AbortingHandlerEndsChain(bs: seq<HandlerBinding>, m: Message, cfg: Config, k: nat)
    requires k < |Enabled(bs)| && SetsAbort(Enabled(bs)[k], m, cfg)
    requires forall j :: 0 <= j < k ==> !SetsAbort(Enabled(bs)[j], m, cfg)
    ensures Planned(bs, m, cfg, false) == Enabled(bs)[..k + 1]
    decreases |bs|
  {
    if bs[0].invocationDisabled {
      AbortingHandlerEndsChain(bs[1..], m, cfg, k);
    } else if k > 0 {
      var rest := Enabled(bs[1..]);
      assert Enabled(bs) == [bs[0]] + rest;
      assert !SetsAbort(Enabled(bs)[0], m, cfg);
      forall j | 0 <= j < k - 1 ensures !SetsAbort(rest[j], m, cfg) {
        assert rest[j] == Enabled(bs)[j + 1];
      }
      AbortingHandlerEndsChain(bs[1..], m, cfg, k - 1);
      assert Enabled(bs)[..k + 1] == [bs[0]] + rest[..k];
    }
  }

  /** The flag is not reset between messages: once it is set, a chain gets only its first
      enabled handler. */
  lemma {:induction false} AbortedChainRunsFirstEnabledOnly(bs: seq<HandlerBinding>, m: Message, cfg: Config)
    ensures Planned(bs, m, cfg, true) == if Enabled(bs) == [] then [] else [Enabled(bs)[0]]
    decreases |bs|
  {
    if bs != [] && bs[0].invocationDisabled {
      AbortedChainRunsFirstEnabledOnly(bs[1..], m, cfg);
    }
  }

  // ---------------------------------------------------------------------------
  // The handler chain of one message
  // ---------------------------------------------------------------------------

  lemma HandlerTurnSucceeds(s: Ambient, b: HandlerBinding, m: Message, cfg: Config)
    requires !b.invocationDisabled && Succeeds(b, m, cfg)
    ensures var (t, step) := HandlerTurn(s, b, m, cfg);
            step == AbortCheck(t) &&
            Calls(t.trace) == Calls(s.trace) + TurnCalls(b, m, cfg) &&
            t.chainAborted == (s.chainAborted || SetsAbort(b, m, cfg))
  {
    HandlerTurnResult(s, b, m, cfg);
  }

  lemma HandlerTurnFails(s: Ambient, b: HandlerBinding, m: Message, cfg: Config)
    requires !b.invocationDisabled && !Succeeds(b, m, cfg)
    ensures HandlerTurn(s, b, m, cfg).1 == Fail(TurnError(b, m, cfg).value)
    ensures Calls(HandlerTurn(s, b, m, cfg).0.trace) == Calls(s.trace) + TurnCalls(b, m, cfg)
  {
    HandlerTurnResult(s, b, m, cfg);
  }

  /** A disabled first binding is passed over, by the chain and by the plan alike. */
  lemma DisabledTurnSkips(s: Ambient, bs: seq<HandlerBinding>, m: Message, cfg: Config, aborted: bool)
    requires bs != [] && bs[0].invocationDisabled
    ensures DispatchToHandlers(s, bs, m, cfg) == DispatchToHandlers(s, bs[1..], m, cfg)
    ensures Planned(bs, m, cfg, aborted) == Planned(bs[1..], m, cfg, aborted)
  {
  }

  /** An enabled first binding whose turn throws nothing: the chain goes on with the rest
      exactly when the flag is still clear. */
  lemma EnabledTurnContinues(s: Ambient, bs: seq<HandlerBinding>, m: Message, cfg: Config)
    requires bs != [] && !bs[0].invocationDisabled && Succeeds(bs[0], m, cfg)
    ensures Calls(HandlerTurn(s, bs[0], m, cfg).0.trace) == Calls(s.trace) + TurnCalls(bs[0], m, cfg)
    ensures HandlerTurn(s, bs[0], m, cfg).0.chainAborted == (s.chainAborted || SetsAbort(bs[0], m, cfg))
    ensures DispatchToHandlers(s, bs, m, cfg) ==
            (if HandlerTurn(s, bs[0], m, cfg).0.chainAborted then (HandlerTurn(s, bs[0], m, cfg).0, None)
             else DispatchToHandlers(HandlerTurn(s, bs[0], m, cfg).0, bs[1..], m, cfg))
  {
    HandlerTurnSucceeds(s, bs[0], m, cfg);
  }

  /** An enabled first binding whose turn fails ends the chain with its error. */
  lemma EnabledTurnFails(s: Ambient, bs: seq<HandlerBinding>, m: Message, cfg: Config, aborted: bool)
    requires bs != [] && !bs[0].invocationDisabled && !Succeeds(bs[0], m, cfg)
    ensures Planned(bs, m, cfg, aborted)[0] == bs[0]
    ensures DispatchToHandlers(s, bs, m, cfg).1 == TurnError(bs[0], m, cfg)
    ensures Calls(DispatchToHandlers(s, bs, m, cfg).0.trace) ==
            Calls(s.trace) + CallsOf(Planned(bs, m, cfg, aborted)[..1], m, cfg)
  {
    assert Planned(bs, m, cfg, aborted)[..1] == [bs[0]];
    HandlerTurnFails(s, bs[0], m, cfg);
    PlanOfOne(bs[0], m, cfg);
  }

  /** A failure at planned turn j > 0 of a chain whose first binding is enabled is a
      failure at turn j - 1 of the rest, after a first turn that throws nothing and
      leaves the flag clear. */
  lemma FailsAtRest(bs: seq<HandlerBinding>, m: Message, cfg: Config, aborted: bool, j: nat)
    requires bs != [] && !bs[0].invocationDisabled && 0 < j && FailsAt(bs, m, cfg, aborted, j)
    ensures Succeeds(bs[0], m, cfg) && !aborted && !SetsAbort(bs[0], m, cfg)
    ensures FailsAt(bs[1..], m, cfg, aborted, j - 1)
    ensures Planned(bs, m, cfg, aborted)[j] == Planned(bs[1..], m, cfg, aborted)[j - 1]
    ensures CallsOf(Planned(bs, m, cfg, aborted)[..j + 1], m, cfg) ==
            TurnCalls(bs[0], m, cfg) + CallsOf(Planned(bs[1..], m, cfg, aborted)[..j], m, cfg)
  {
    var p := Planned(bs, m, cfg, aborted);
    var rest := Planned(bs[1..], m, cfg, aborted);
    assert p[0] == bs[0];
    assert p == [bs[0]] + rest;
    forall l | 0 <= l < j - 1 ensures Succeeds(rest[l], m, cfg) {
      assert rest[l] == p[l + 1];
    }
    assert p[..j + 1][0] == bs[0] && p[..j + 1][1..] == rest[..j];
  }

  lemma ChainSucceedsSplit(bs: seq<HandlerBinding>, m: Message, cfg: Config, aborted: bool)
    requires bs != [] && ChainSucceeds(bs, m, cfg, aborted)
    ensures bs[0].invocationDisabled ==> ChainSucceeds(bs[1..], m, cfg, aborted)
    ensures !bs[0].invocationDisabled ==> Succeeds(bs[0], m, cfg)
    ensures !bs[0].invocationDisabled && !aborted && !SetsAbort(bs[0], m, cfg) ==>
              ChainSucceeds(bs[1..], m, cfg, aborted)
  {
    var p := Planned(bs, m, cfg, aborted);
    var rest := Planned(bs[1..], m, cfg, aborted);
    if !bs[0].invocationDisabled {
      assert p[0] == bs[0];
      if !aborted && !SetsAbort(bs[0], m, cfg) {
        assert p[1..] == rest;
      }
    }
  }

  lemma PlanOfOne(b: HandlerBinding, m: Message, cfg: Config)
    ensures CallsOf([b], m, cfg) == TurnCalls(b, m, cfg)
    ensures AnyAborts([b], m, cfg) == SetsAbort(b, m, cfg)
  {
    assert [b][1..] == [];
  }

  lemma PlanOfMore(bs: seq<HandlerBinding>, m: Message, cfg: Config)
    requires bs != [] && !bs[0].invocationDisabled && !SetsAbort(bs[0], m, cfg)
    ensures Planned(bs, m, cfg, false) == [bs[0]] + Planned(bs[1..], m, cfg, false)
    ensures CallsOf(Planned(bs, m, cfg, false), m, cfg) == TurnCalls(bs[0], m, cfg) + CallsOf(Planned(bs[1..], m, cfg, false), m, cfg)
    ensures AnyAborts(Planned(bs, m, cfg, false), m, cfg) == AnyAborts(Planned(bs[1..], m, cfg, false), m, cfg)
  {
    var rest := Planned(bs[1..], m, cfg, false);
    assert ([bs[0]] + rest)[0] == bs[0];
    assert ([bs[0]] + rest)[1..] == rest;
  }

  /** A disabled binding has no effect at all: the chain runs as if it were not there. */
  lemma {:induction false} DisabledBindingsAreInert(s: Ambient, bs: seq<HandlerBinding>, m: Message, cfg: Config)
    ensures DispatchToHandlers(s, bs, m, cfg) == DispatchToHandlers(s, Enabled(bs), m, cfg)
    decreases |bs|
  {
    if bs != [] {
      var rest := Enabled(bs[1..]);
      if bs[0].invocationDisabled {
        DisabledBindingsAreInert(s, bs[1..], m, cfg);
      } else {
        var (t, step) := HandlerTurn(s, bs[0], m, cfg);
        assert ([bs[0]] + rest)[0] == bs[0];
        assert ([bs[0]] + rest)[1..] == rest;
        if step.Continue? {
          DisabledBindingsAreInert(t, bs[1..], m, cfg);
        }
      }
    }
  }

  /** The plan of a chain whose first binding is enabled and gets a turn that throws
      nothing: that binding alone if the flag is set after it, otherwise that binding
      followed by the plan of the rest. */
  lemma EnabledTurnPlan(bs: seq<HandlerBinding>, m: Message, cfg: Config, aborted: bool)
    requires bs != [] && !bs[0].invocationDisabled && ChainSucceeds(bs, m, cfg, aborted)
    ensures Succeeds(bs[0], m, cfg)
    ensures aborted || SetsAbort(bs[0], m, cfg) ==>
              CallsOf(Planned(bs, m, cfg, aborted), m, cfg) == TurnCalls(bs[0], m, cfg) &&
              AnyAborts(Planned(bs, m, cfg, aborted), m, cfg) == SetsAbort(bs[0], m, cfg)
    ensures !aborted && !SetsAbort(bs[0], m, cfg) ==>
              ChainSucceeds(bs[1..], m, cfg, aborted) &&
              CallsOf(Planned(bs, m, cfg, aborted), m, cfg) == TurnCalls(bs[0], m, cfg) + CallsOf(Planned(bs[1..], m, cfg, aborted), m, cfg) &&
              AnyAborts(Planned(bs, m, cfg, aborted), m, cfg) == AnyAborts(Planned(bs[1..], m, cfg, aborted), m, cfg)
  {
    ChainSucceedsSplit(bs, m, cfg, aborted);
    if aborted || SetsAbort(bs[0], m, cfg) {
      assert Planned(bs, m, cfg, aborted) == [bs[0]];
      PlanOfOne(bs[0], m, cfg);
    } else {
      PlanOfMore(bs, m, cfg);
    }
  }

  /** The first turn of a chain that follows its plan, with t the state after it: either
      the flag is set and the chain ends there, having made the plan's calls, or the flag
      is still clear and the chain goes on with the plan of the rest. */
  lemma EnabledTurnStep(s: Ambient, bs: seq<HandlerBinding>, m: Message, cfg: Config) returns (t: Ambient)
    requires bs != [] && !bs[0].invocationDisabled && ChainSucceeds(bs, m, cfg, s.chainAborted)
    ensures t.chainAborted ==>
              DispatchToHandlers(s, bs, m, cfg) == (t, None) &&
              Calls(t.trace) == Calls(s.trace) + CallsOf(Planned(bs, m, cfg, s.chainAborted), m, cfg) &&
              (s.chainAborted || AnyAborts(Planned(bs, m, cfg, s.chainAborted), m, cfg))
    ensures !t.chainAborted ==>
              !s.chainAborted && ChainSucceeds(bs[1..], m, cfg, false) &&
              DispatchToHandlers(s, bs, m, cfg) == DispatchToHandlers(t, bs[1..], m, cfg) &&
              Calls(s.trace) + CallsOf(Planned(bs, m, cfg, false), m, cfg) ==
                Calls(t.trace) + CallsOf(Planned(bs[1..], m, cfg, false), m, cfg) &&
              AnyAborts(Planned(bs, m, cfg, false), m, cfg) == AnyAborts(Planned(bs[1..], m, cfg, false), m, cfg)
  {
    var a := s.chainAborted;
    t := HandlerTurn(s, bs[0], m, cfg).0;
    EnabledTurnPlan(bs, m, cfg, a);
    EnabledTurnContinues(s, bs, m, cfg);
    if !t.chainAborted {
      ConcatAssoc(Calls(s.trace), TurnCalls(bs[0], m, cfg), CallsOf(Planned(bs[1..], m, cfg, false), m, cfg));
    }
  }

  /** When no handler that gets a turn throws, the chain makes exactly the planned calls,
      in order, and the flag afterwards records whether one of them set it. */
  lemma {:induction false} ChainFollowsPlan(s: Ambient, bs: seq<HandlerBinding>, m: Message, cfg: Config)
    requires ChainSucceeds(bs, m, cfg, s.chainAborted)
    ensures DispatchToHandlers(s, bs, m, cfg).1 == None
    ensures Calls(DispatchToHandlers(s, bs, m, cfg).0.trace) ==
            Calls(s.trace) + CallsOf(Planned(bs, m, cfg, s.chainAborted), m, cfg)
    ensures DispatchToHandlers(s, bs, m, cfg).0.chainAborted ==
            (s.chainAborted || AnyAborts(Planned(bs, m, cfg, s.chainAborted), m, cfg))
    decreases |bs|
  {
    if bs != [] {
      var a := s.chainAborted;
      if bs[0].invocationDisabled {
        assert DispatchToHandlers(s, bs, m, cfg) == DispatchToHandlers(s, bs[1..], m, cfg) &&
               Planned(bs, m, cfg, a) == Planned(bs[1..], m, cfg, a) &&
               ChainSucceeds(bs[1..], m, cfg, a) by {
          DisabledTurnSkips(s, bs, m, cfg, a);
          ChainSucceedsSplit(bs, m, cfg, a);
        }
        ChainFollowsPlan(s, bs[1..], m, cfg);
      } else {
        var t := EnabledTurnStep(s, bs, m, cfg);
        if !t.chainAborted {
          ChainFollowsPlan(t, bs[1..], m, cfg);
        }
      }
    }
  }

  /** A chain whose planned turn j > 0 fails, with t the state after its first turn: the
      flag is still clear, and the chain and its plan go on with the rest, where the
      failure is at turn j - 1. */
  lemma FailingChainStep(s: Ambient, bs: seq<HandlerBinding>, m: Message, cfg: Config, j: nat) returns (t: Ambient)
    requires bs != [] && !bs[0].invocationDisabled && 0 < j && FailsAt(bs, m, cfg, s.chainAborted, j)
    ensures !s.chainAborted && !t.chainAborted
    ensures FailsAt(bs[1..], m, cfg, false, j - 1)
    ensures DispatchToHandlers(s, bs, m, cfg) == DispatchToHandlers(t, bs[1..], m, cfg)
    ensures Planned(bs, m, cfg, false)[j] == Planned(bs[1..], m, cfg, false)[j - 1]
    ensures Calls(s.trace) + CallsOf(Planned(bs, m, cfg, false)[..j + 1], m, cfg) ==
            Calls(t.trace) + CallsOf(Planned(bs[1..], m, cfg, false)[..j], m, cfg)
  {
    FailsAtRest(bs, m, cfg, s.chainAborted, j);
    t := HandlerTurn(s, bs[0], m, cfg).0;
    EnabledTurnContinues(s, bs, m, cfg);
    ConcatAssoc(Calls(s.trace), TurnCalls(bs[0], m, cfg), CallsOf(Planned(bs[1..], m, cfg, false)[..j], m, cfg));
  }

  /** When planned turn j is the first to fail, the chain ends with that turn's error,
      after exactly the calls of the planned turns up to and including it: no later
      handler gets a turn. */
  lemma {:induction false} ChainFailsAt(s: Ambient, bs: seq<HandlerBinding>, m: Message, cfg: Config, j: nat)
    requires FailsAt(bs, m, cfg, s.chainAborted, j)
    ensures DispatchToHandlers(s, bs, m, cfg).1 == TurnError(Planned(bs, m, cfg, s.chainAborted)[j], m, cfg)
    ensures Calls(DispatchToHandlers(s, bs, m, cfg).0.trace) ==
            Calls(s.trace) + CallsOf(Planned(bs, m, cfg, s.chainAborted)[..j + 1], m, cfg)
    decreases |bs|
  {
    var b := bs[0];
    var a := s.chainAborted;
    if b.invocationDisabled {
      assert DispatchToHandlers(s, bs, m, cfg) == DispatchToHandlers(s, bs[1..], m, cfg) &&
             Planned(bs, m, cfg, a) == Planned(bs[1..], m, cfg, a) by {
        DisabledTurnSkips(s, bs, m, cfg, a);
      }
      ChainFailsAt(s, bs[1..], m, cfg, j);
    } else if j == 0 {
      EnabledTurnFails(s, bs, m, cfg, a);
    } else {
      var t := FailingChainStep(s, bs, m, cfg, j);
      ChainFailsAt(t, bs[1..], m, cfg, j - 1);
    }
  }

  /** The ambient cells around one message's chain: the current message is left alone,
      every call is for this message and sees it as current, and when no saga was current
      before, each call sees its own handler as the saga exactly when it is one and no
      saga is current afterwards. */
  lemma {:induction false} ChainScope(s: Ambient, bs: seq<HandlerBinding>, m: Message, cfg: Config)
    ensures var (t, err) := DispatchToHandlers(s, bs, m, cfg);
            t.currentMessage == s.currentMessage &&
            s.trace <= t.trace && Nexts(t.trace) == Nexts(s.trace) &&
            (s.chainAborted ==> t.chainAborted) &&
            (err.Some? ==> !err.value.MessagesNotSet?) &&
            (forall k :: |s.trace| <= k < |t.trace| ==>
               t.trace[k].Called? && t.trace[k].message == m && t.trace[k].current == s.currentMessage) &&
            (s.currentSaga == None ==>
               t.currentSaga == None && forall k :: |s.trace| <= k < |t.trace| ==> SagaScoped(t.trace[k]))
    decreases |bs|
  {
    if bs != [] {
      if bs[0].invocationDisabled {
        ChainScope(s, bs[1..], m, cfg);
      } else {
        var (t, step) := HandlerTurn(s, bs[0], m, cfg);
        HandlerTurnScope(s, bs[0], m, cfg);
        if step.Continue? {
          ChainScope(t, bs[1..], m, cfg);
        }
      }
    }
  }

  // ---------------------------------------------------------------------------
  // The messages of the unit of work and the whole stage
  // ---------------------------------------------------------------------------

  lemma HandleMessagesUnfold(s: Ambient, ms: seq<Message>, cfg: Config)
    requires ms != []
    ensures var m := ms[0];
            var chain := DispatchToHandlers(s.(currentMessage := Some(m)), cfg.handlersFor(m.messageType), m, cfg);
            HandleMessages(s, ms, cfg) == if chain.1.Some? then chain else HandleMessages(chain.0, ms[1..], cfg)
  {
  }

  lemma PlannedCallsUnfold(ms: seq<Message>, cfg: Config, aborted: bool)
    requires ms != []
    ensures var p := Planned(cfg.handlersFor(ms[0].messageType), ms[0], cfg, aborted);
            PlannedCalls(ms, cfg, aborted) == CallsOf(p, ms[0], cfg) + PlannedCalls(ms[1..], cfg, aborted || AnyAborts(p, ms[0], cfg))
  {
  }

  lemma FlagAfterUnfold(ms: seq<Message>, cfg: Config, aborted: bool)
    requires ms != []
    ensures var p := Planned(cfg.handlersFor(ms[0].messageType), ms[0], cfg, aborted);
            FlagAfter(ms, cfg, aborted) == FlagAfter(ms[1..], cfg, aborted || AnyAborts(p, ms[0], cfg))
  {
  }

  /** The plan of a unit whose first message goes through, in terms of the plan of the
      rest from the flag that message leaves. */
  lemma AllSucceedUnfold(ms: seq<Message>, cfg: Config, aborted: bool)
    requires ms != [] && AllSucceed(ms, cfg, aborted)
    ensures ChainSucceeds(cfg.handlersFor(ms[0].messageType), ms[0], cfg, aborted)
    ensures var p := Planned(cfg.handlersFor(ms[0].messageType), ms[0], cfg, aborted);
            var a1 := aborted || AnyAborts(p, ms[0], cfg);
            AllSucceed(ms[1..], cfg, a1) &&
            FlagAfter(ms, cfg, aborted) == FlagAfter(ms[1..], cfg, a1) &&
            PlannedCalls(ms, cfg, aborted) == CallsOf(p, ms[0], cfg) + PlannedCalls(ms[1..], cfg, a1)
  {
    FlagAfterUnfold(ms, cfg, aborted);
    PlannedCallsUnfold(ms, cfg, aborted);
  }

  /** A first message whose planned turn j is the first of its chain to fail ends the
      loop with that turn's error, the message still current. */
  lemma FirstMessageFails(s: Ambient, m: Message, later: seq<Message>, cfg: Config, j: nat)
    requires FailsAt(cfg.handlersFor(m.messageType), m, cfg, s.chainAborted, j)
    ensures var p := Planned(cfg.handlersFor(m.messageType), m, cfg, s.chainAborted);
            var r := HandleMessages(s, [m] + later, cfg);
            r.1 == TurnError(p[j], m, cfg) &&
            Calls(r.0.trace) == Calls(s.trace) + CallsOf(p[..j + 1], m, cfg) &&
            r.0.currentMessage == Some(m)
  {
    var s1 := s.(currentMessage := Some(m));
    var bs := cfg.handlersFor(m.messageType);
    var p := Planned(bs, m, cfg, s.chainAborted);
    var chain := DispatchToHandlers(s1, bs, m, cfg);
    assert chain.1 == TurnError(p[j], m, cfg) && chain.1.Some? &&
           Calls(chain.0.trace) == Calls(s.trace) + CallsOf(p[..j + 1], m, cfg) &&
           chain.0.currentMessage == Some(m) by {
      ChainFailsAt(s1, bs, m, cfg, j);
      ChainScope(s1, bs, m, cfg);
    }
    assert HandleMessages(s, [m] + later, cfg) == chain by {
      assert ([m] + later)[0] == m;
      HandleMessagesUnfold(s, [m] + later, cfg);
    }
  }

  /** A first message m none of whose planned handlers throws is handled with its planned
      calls, and the loop goes on from t with the rest. */
  lemma FirstMessageGoesThrough(s: Ambient, m: Message, rest: seq<Message>, cfg: Config) returns (t: Ambient)
    requires ChainSucceeds(cfg.handlersFor(m.messageType), m, cfg, s.chainAborted)
    ensures HandleMessages(s, [m] + rest, cfg) == HandleMessages(t, rest, cfg)
    ensures Calls(t.trace) == Calls(s.trace) + CallsOf(Planned(cfg.handlersFor(m.messageType), m, cfg, s.chainAborted), m, cfg)
    ensures t.chainAborted == (s.chainAborted || AnyAborts(Planned(cfg.handlersFor(m.messageType), m, cfg, s.chainAborted), m, cfg))
  {
    var s1 := s.(currentMessage := Some(m));
    t := DispatchToHandlers(s1, cfg.handlersFor(m.messageType), m, cfg).0;
    assert HandleMessages(s, [m] + rest, cfg) == HandleMessages(t, rest, cfg) by {
      assert ([m] + rest)[0] == m && ([m] + rest)[1..] == rest;
      HandleMessagesUnfold(s, [m] + rest, cfg);
      ChainFollowsPlan(s1, cfg.handlersFor(m.messageType), m, cfg);
    }
    ChainFollowsPlan(s1, cfg.handlersFor(m.messageType), m, cfg);
  }

  /** The first of the messages done goes through: the loop over done + later goes on
      from t with the rest, the plan of the rest starts from the flag t carries, and the
      calls made so far are the first message's planned ones. */
  lemma FirstMessageStep(s: Ambient, done: seq<Message>, later: seq<Message>, cfg: Config) returns (t: Ambient)
    requires done != [] && AllSucceed(done, cfg, s.chainAborted)
    ensures AllSucceed(done[1..], cfg, t.chainAborted)
    ensures HandleMessages(s, done + later, cfg) == HandleMessages(t, done[1..] + later, cfg)
    ensures Calls(s.trace) + PlannedCalls(done, cfg, s.chainAborted) ==
            Calls(t.trace) + PlannedCalls(done[1..], cfg, t.chainAborted)
    ensures FlagAfter(done, cfg, s.chainAborted) == FlagAfter(done[1..], cfg, t.chainAborted)
  {
    var m := done[0];
    var a := s.chainAborted;
    var p := Planned(cfg.handlersFor(m.messageType), m, cfg, a);
    var a1 := a || AnyAborts(p, m, cfg);
    assert ChainSucceeds(cfg.handlersFor(m.messageType), m, cfg, a) &&
           AllSucceed(done[1..], cfg, a1) &&
           FlagAfter(done, cfg, a) == FlagAfter(done[1..], cfg, a1) &&
           PlannedCalls(done, cfg, a) == CallsOf(p, m, cfg) + PlannedCalls(done[1..], cfg, a1) by {
      AllSucceedUnfold(done, cfg, a);
    }
    t := FirstMessageGoesThrough(s, m, done[1..] + later, cfg);
    assert HandleMessages(s, done + later, cfg) == HandleMessages(t, done[1..] + later, cfg) by {
      ConcatHead(done, later);
    }
    assert Calls(s.trace) + PlannedCalls(done, cfg, a) == Calls(t.trace) + PlannedCalls(done[1..], cfg, t.chainAborted) by {
      ConcatAssoc(Calls(s.trace), CallsOf(p, m, cfg), PlannedCalls(done[1..], cfg, a1));
    }
  }

  /** When no handler that gets a turn throws, the messages are handled in order, make
      exactly the planned calls, and leave the flag as the plan says. */
  lemma {:induction false} MessagesFollowPlan(s: Ambient, ms: seq<Message>, cfg: Config)
    requires AllSucceed(ms, cfg, s.chainAborted)
    ensures HandleMessages(s, ms, cfg).1 == None
    ensures Calls(HandleMessages(s, ms, cfg).0.trace) == Calls(s.trace) + PlannedCalls(ms, cfg, s.chainAborted)
    ensures HandleMessages(s, ms, cfg).0.chainAborted == FlagAfter(ms, cfg, s.chainAborted)
    decreases |ms|
  {
    if ms != [] {
      assert ms + [] == ms && ms[1..] + [] == ms[1..];
      var t := FirstMessageStep(s, ms, [], cfg);
      MessagesFollowPlan(t, ms[1..], cfg);
    }
  }

  /** FirstMessageStep for a loop over done, then m, then later. */
  lemma EarlierMessageStep(s: Ambient, done: seq<Message>, m: Message, later: seq<Message>, cfg: Config) returns (t: Ambient)
    requires done != [] && AllSucceed(done, cfg, s.chainAborted)
    ensures AllSucceed(done[1..], cfg, t.chainAborted)
    ensures HandleMessages(s, done + [m] + later, cfg) == HandleMessages(t, done[1..] + [m] + later, cfg)
    ensures Calls(s.trace) + PlannedCalls(done, cfg, s.chainAborted) ==
            Calls(t.trace) + PlannedCalls(done[1..], cfg, t.chainAborted)
    ensures FlagAfter(done, cfg, s.chainAborted) == FlagAfter(done[1..], cfg, t.chainAborted)
  {
    var rest := [m] + later;
    assert done + [m] + later == done + rest && done[1..] + rest == done[1..] + [m] + later;
    t := FirstMessageStep(s, done, rest, cfg);
  }

  /** When the messages done go through and planned turn j of the next message m is the
      first of its chain to fail, the loop ends with that turn's error and m as the
      current message, after the planned calls of done and those of m up to and
      including the failing turn: no later message is handled. */
  lemma {:induction false} MessagesFailAt(s: Ambient, done: seq<Message>, m: Message, later: seq<Message>, cfg: Config, j: nat)
    requires AllSucceed(done, cfg, s.chainAborted)
    requires FailsAt(cfg.handlersFor(m.messageType), m, cfg, FlagAfter(done, cfg, s.chainAborted), j)
    ensures HandleMessages(s, done + [m] + later, cfg).1 ==
            TurnError(Planned(cfg.handlersFor(m.messageType), m, cfg, FlagAfter(done, cfg, s.chainAborted))[j], m, cfg)
    ensures Calls(HandleMessages(s, done + [m] + later, cfg).0.trace) ==
            Calls(s.trace) + PlannedCalls(done, cfg, s.chainAborted) +
            CallsOf(Planned(cfg.handlersFor(m.messageType), m, cfg, FlagAfter(done, cfg, s.chainAborted))[..j + 1], m, cfg)
    ensures HandleMessages(s, done + [m] + later, cfg).0.currentMessage == Some(m)
    decreases |done|
  {
    if done == [] {
      assert FlagAfter(done, cfg, s.chainAborted) == s.chainAborted &&
             Calls(s.trace) + PlannedCalls(done, cfg, s.chainAborted) == Calls(s.trace) &&
             done + [m] + later == [m] + later;
      FirstMessageFails(s, m, later, cfg, j);
    } else {
      var t := EarlierMessageStep(s, done, m, later, cfg);
      MessagesFailAt(t, done[1..], m, later, cfg, j);
    }
  }

  /** The ambient cells around the message loop. */
  lemma {:induction false} MessagesScope(s: Ambient, ms: seq<Message>, cfg: Config)
    ensures var (t, err) := HandleMessages(s, ms, cfg);
            s.trace <= t.trace && Nexts(t.trace) == Nexts(s.trace) &&
            (s.chainAborted ==> t.chainAborted) &&
            (err.Some? ==> !err.value.MessagesNotSet?) &&
            (ms == [] ==> t == s) &&
            (ms != [] ==> t.currentMessage.Some? && t.currentMessage.value in ms) &&
            (forall k :: |s.trace| <= k < |t.trace| ==>
               t.trace[k].Called? && t.trace[k].message in ms && t.trace[k].current == Some(t.trace[k].message)) &&
            (s.currentSaga == None ==>
               t.currentSaga == None && forall k :: |s.trace| <= k < |t.trace| ==> SagaScoped(t.trace[k]))
    decreases |ms|
  {
    if ms != [] {
      var m := ms[0];
      var s1 := s.(currentMessage := Some(m));
      var (t, err) := DispatchToHandlers(s1, cfg.handlersFor(m.messageType), m, cfg);
      ChainScope(s1, cfg.handlersFor(m.messageType), m, cfg);
      if err.None? {
        MessagesScope(t, ms[1..], cfg);
        forall x | x in ms[1..] ensures x in ms { }
      }
    }
  }

  /** The stage as a whole: a missing message list changes nothing; otherwise events are
      only added, and the next stage is called once at the end exactly when all messages
      went through, with the current message cleared. A failure leaves the message it
      happened on as the current one. */
  lemma InvokeHandlersScope(s: Ambient, messages: Option<seq<Message>>, cfg: Config)
    ensures var (t, r) := InvokeHandlers(s, messages, cfg);
            s.trace <= t.trace &&
            (messages.None? ==> t == s && r == Raised(MessagesNotSet)) &&
            (messages.Some? && r.Raised? ==>
               !r.error.MessagesNotSet? && t.currentMessage.Some? && t.currentMessage.value in messages.value &&
               Nexts(t.trace) == Nexts(s.trace)) &&
            (r == Done ==>
               t.currentMessage == None && t.trace[|t.trace| - 1] == NextCalled &&
               Nexts(t.trace) == Nexts(s.trace) + 1)
  {
    if messages.Some? {
      var (t, err) := HandleMessages(s, messages.value, cfg);
      MessagesScope(s, messages.value, cfg);
      if err.None? {
        AppendEvent(t.trace, NextCalled);
        assert InvokeHandlers(s, messages, cfg) == (t.(currentMessage := None, trace := t.trace + [NextCalled]), Done);
      } else {
        assert InvokeHandlers(s, messages, cfg) == (t, Raised(err.value));
      }
    }
  }

  /** The events the stage adds: calls into handler code for messages of the unit, each
      seeing its message as current, and at most a last one that is not such a call. With
      no saga current before, each call sees its own handler as the saga exactly when it
      is one, and no saga is current afterwards. */
  lemma InvokeHandlersEvents(s: Ambient, messages: Option<seq<Message>>, cfg: Config)
    ensures var (t, r) := InvokeHandlers(s, messages, cfg);
            (messages.Some? ==> forall k :: |s.trace| <= k < |t.trace| && t.trace[k].Called? ==>
               t.trace[k].message in messages.value && t.trace[k].current == Some(t.trace[k].message)) &&
            (forall k :: |s.trace| <= k < |t.trace| - 1 ==> t.trace[k].Called?) &&
            (s.currentSaga == None ==>
               t.currentSaga == None && forall k :: |s.trace| <= k < |t.trace| ==> SagaScoped(t.trace[k]))
  {
    if messages.Some? {
      var (t, err) := HandleMessages(s, messages.value, cfg);
      MessagesScope(s, messages.value, cfg);
      if err.None? {
        assert InvokeHandlers(s, messages, cfg) == (t.(currentMessage := None, trace := t.trace + [NextCalled]), Done);
      } else {
        assert InvokeHandlers(s, messages, cfg) == (t, Raised(err.value));
      }
    }
  }

  /** When no enabled handler throws, the stage completes and makes exactly the planned
      calls, in message order and, per message, in directory order. */
  lemma InvokeHandlersFollowsPlan(s: Ambient, ms: seq<Message>, cfg: Config)
    requires AllSucceed(ms, cfg, s.chainAborted)
    ensures var (t, r) := InvokeHandlers(s, Some(ms), cfg);
            r == Done && Calls(t.trace) == Calls(s.trace) + PlannedCalls(ms, cfg, s.chainAborted)
  {
    var (t, err) := HandleMessages(s, ms, cfg);
    MessagesFollowPlan(s, ms, cfg);
    AppendEvent(t.trace, NextCalled);
  }

  /** When the messages done go through and planned turn j of the next message m is the
      first to fail, the stage raises exactly that turn's error (the invalid-factory
      error, the wrapped cause of a dispatch action or the unwrapped cause of a direct
      invocation), leaves m as the current message, does not call the next stage, and
      makes exactly the planned calls up to and including the failing turn. */
  lemma InvokeHandlersFailsAt(s: Ambient, done: seq<Message>, m: Message, later: seq<Message>, cfg: Config, j: nat)
    requires AllSucceed(done, cfg, s.chainAborted)
    requires FailsAt(cfg.handlersFor(m.messageType), m, cfg, FlagAfter(done, cfg, s.chainAborted), j)
    ensures var p := Planned(cfg.handlersFor(m.messageType), m, cfg, FlagAfter(done, cfg, s.chainAborted));
            var r := InvokeHandlers(s, Some(done + [m] + later), cfg);
            r.1 == Raised(TurnError(p[j], m, cfg).value) &&
            r.0.currentMessage == Some(m) && Nexts(r.0.trace) == Nexts(s.trace) &&
            Calls(r.0.trace) == Calls(s.trace) + PlannedCalls(done, cfg, s.chainAborted) + CallsOf(p[..j + 1], m, cfg)
  {
    MessagesFailAt(s, done, m, later, cfg, j);
    InvokeHandlersScope(s, Some(done + [m] + later), cfg);
  }
}
