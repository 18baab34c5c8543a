/** Concrete units of work run through the stage, among them the consequence of the
    chain-aborted flag not being reset between messages. */
module DispatchScenarios {
  import opened HandlerModel
  import opened Dispatch
  import opened DispatchProperties

  const A := Message(1, 10)
  const B := Message(2, 20)
  const H1 := Instance(1, 100, false)
  const H2 := Instance(2, 200, false)
  const H3 := Instance(3, 300, false)
  const H4 := Instance(4, 400, false)

  /** A binding without a factory whose invocation has outcome o on every message. */
  function Direct(h: Instance, o: CallOutcome): HandlerBinding
  {
    HandlerBinding(h, false, _ => o)
  }

  /** A unit with A handled by H1 and then H2, which sets the flag, and B handled by bsB. */
  function AbortConfig(bsB: seq<HandlerBinding>): Config
  {
    Config(t => if t == 10 then [Direct(H1, Returns), Direct(H2, ReturnsAborting)]
                else if t == 20 then bsB else [],
           map[], _ => NotADispatcherFactory)
  }

  const Start := Ambient(None, None, false, [])

  /** The chain of A in AbortConfig: both handlers get a turn, neither throws, and the
      second sets the flag. */
  lemma PlanOfA(bsB: seq<HandlerBinding>)
    ensures var cfg := AbortConfig(bsB);
            var p := Planned(cfg.handlersFor(A.messageType), A, cfg, false);
            ChainSucceeds(cfg.handlersFor(A.messageType), A, cfg, false) && AnyAborts(p, A, cfg) &&
            CallsOf(p, A, cfg) == [CallSite(H1, A, Invocation), CallSite(H2, A, Invocation)]
  {
    var cfg := AbortConfig(bsB);
    var b1, b2 := Direct(H1, Returns), Direct(H2, ReturnsAborting);
    var bsA := [b1, b2];
    assert cfg.handlersFor(A.messageType) == bsA;
    assert GetDispatcherFactoryFor(H1.handlerType, cfg) == NoFactory;
    assert GetDispatcherFactoryFor(H2.handlerType, cfg) == NoFactory;
    assert !SetsAbort(b1, A, cfg) && SetsAbort(b2, A, cfg);
    assert bsA[1..] == [b2] && [b2][1..] == [];
    var pA := Planned(bsA, A, cfg, false);
    assert Planned([b2], A, cfg, false) == [b2];
    assert pA == [b1] + Planned([b2], A, cfg, false);
    assert pA == [b1, b2];
    assert pA[1..] == [b2];
    assert ChainSucceeds(bsA, A, cfg, false) by {
      assert Succeeds(b1, A, cfg) && Succeeds(b2, A, cfg);
    }
    assert CallsOf(pA, A, cfg) == [CallSite(H1, A, Invocation), CallSite(H2, A, Invocation)] by {
      PlanOfOne(b2, A, cfg);
      assert CallsOf(pA, A, cfg) == TurnCalls(b1, A, cfg) + CallsOf([b2], A, cfg);
    }
  }

  /** Whatever B's handlers are, as long as those that get a turn throw nothing, the unit
      completes after the calls of A's chain and those of B's chain with the flag set. */
  lemma PlanOfAborting(bsB: seq<HandlerBinding>)
    requires ChainSucceeds(bsB, B, AbortConfig(bsB), true)
    ensures var cfg := AbortConfig(bsB);
            var r := InvokeHandlers(Start, Some([A, B]), cfg);
            r.1 == Done && Nexts(r.0.trace) == 1 &&
            Calls(r.0.trace) == [CallSite(H1, A, Invocation), CallSite(H2, A, Invocation)] +
                                CallsOf(Planned(bsB, B, cfg, true), B, cfg)
  {
    var cfg := AbortConfig(bsB);
    assert cfg.handlersFor(B.messageType) == bsB;
    PlanOfA(bsB);
    assert [A, B][1..] == [B] && [B][1..] == [];
    assert AllSucceed([A, B], cfg, false);
    PlannedCallsUnfold([A, B], cfg, false);
    PlannedCallsUnfold([B], cfg, true);
    InvokeHandlersFollowsPlan(Start, [A, B], cfg);
    InvokeHandlersScope(Start, Some([A, B]), cfg);
  }

  /** Scenario: A with H1 and H2 (which sets the flag), B with H3 alone: H1, H2 and
      H3 are invoked, in that order, and the next stage is called once at the end. */
  lemma AbortScenario()
    ensures var r := InvokeHandlers(Start, Some([A, B]), AbortConfig([Direct(H3, Returns)]));
            r.1 == Done && Nexts(r.0.trace) == 1 &&
            Calls(r.0.trace) == [CallSite(H1, A, Invocation), CallSite(H2, A, Invocation), CallSite(H3, B, Invocation)]
  {
    var b3 := Direct(H3, Returns);
    var cfg := AbortConfig([b3]);
    assert GetDispatcherFactoryFor(H3.handlerType, cfg) == NoFactory;
    AbortedChainRunsFirstEnabledOnly([b3], B, cfg);
    assert Enabled([b3]) == [b3] by { assert [b3][1..] == []; }
    assert ChainSucceeds([b3], B, cfg, true) by { assert Succeeds(b3, B, cfg); }
    PlanOfAborting([b3]);
    assert CallsOf([b3], B, cfg) == TurnCalls(b3, B, cfg) by { PlanOfOne(b3, B, cfg); }
  }

  /** Scenario: the flag set while handling A is still set for B. Of B's handlers H3 and
      H4 only H3 is invoked, although no handler of B set the flag, and the failure H4
      would raise never happens: the unit completes. */
  lemma AbortCarriesOverToNextMessage()
    ensures var r := InvokeHandlers(Start, Some([A, B]), AbortConfig([Direct(H3, Returns), Direct(H4, Throws(9))]));
            r.1 == Done &&
            Calls(r.0.trace) == [CallSite(H1, A, Invocation), CallSite(H2, A, Invocation), CallSite(H3, B, Invocation)]
  {
    var b3, b4 := Direct(H3, Returns), Direct(H4, Throws(9));
    var cfg := AbortConfig([b3, b4]);
    assert GetDispatcherFactoryFor(H3.handlerType, cfg) == NoFactory;
    AbortedChainRunsFirstEnabledOnly([b3, b4], B, cfg);
    assert Enabled([b3, b4]) == [b3, b4] by {
      assert [b3, b4][1..] == [b4] && [b4][1..] == [];
      assert Enabled([b4]) == [b4];
      assert Enabled([b3, b4]) == [b3] + Enabled([b4]);
    }
    assert ChainSucceeds([b3, b4], B, cfg, true) by {
      assert Succeeds(b3, B, cfg);
      assert [b3][1..] == [];
    }
    PlanOfAborting([b3, b4]);
    assert CallsOf([b3], B, cfg) == TurnCalls(b3, B, cfg) by { PlanOfOne(b3, B, cfg); }
  }

  /** A saga handler type 500 registered with the factory type 7. */
  const S := Instance(5, 500, true)

  /** A handled by the saga S, whose handler type is mapped to factory type 7; building 7
      gives built. */
  function FactoryConfig(built: Built): Config
  {
    Config(t => if t == 10 then [HandlerBinding(S, false, _ => Returns)] else [],
           map[500 := 7], t => if t == 7 then built else NotADispatcherFactory)
  }

  /** Scenario: the factory yields two actions and the second throws: both run, the
      caller gets the wrapped cause, the next stage is not called, and the saga cell held
      S during both actions and is empty afterwards. */
  lemma FactoryFailureScenario()
    ensures var r := InvokeHandlers(Start, Some([A]), FactoryConfig(DispatcherFactory((_, _) => [Returns, Throws(42)])));
            r.1 == Raised(HandlingFailed(42)) && Nexts(r.0.trace) == 0 &&
            Calls(r.0.trace) == [CallSite(S, A, Dispatcher(0)), CallSite(S, A, Dispatcher(1))] &&
            r.0.currentSaga == None && SagaScopedTrace(r.0.trace)
  {
    var ds := [Returns, Throws(42)];
    var cfg := FactoryConfig(DispatcherFactory((_, _) => ds));
    var b := HandlerBinding(S, false, _ => Returns);
    var sA := Start.(currentMessage := Some(A));
    assert cfg.handlersFor(A.messageType) == [b];
    var res := GetDispatcherFactoryFor(S.handlerType, cfg);
    assert res.Factory? && res.getDispatcher(S.handlerType, A) == ds;
    assert FirstThrow(ds, 0) == 1 && RunEnd(ds, 0) == 2;
    HandlerTurnResult(sA, b, A, cfg);
    var turn := HandlerTurn(sA, b, A, cfg);
    assert turn.1 == Fail(HandlingFailed(42));
    assert ActionSites(S, A, 0, 2) == [CallSite(S, A, Dispatcher(0)), CallSite(S, A, Dispatcher(1))];
    assert DispatchToHandlers(sA, [b], A, cfg) == (turn.0, Some(HandlingFailed(42)));
    assert HandleMessages(Start, [A], cfg) == (turn.0, Some(HandlingFailed(42)));
    InvokeHandlersScope(Start, Some([A]), cfg);
    InvokeHandlersEvents(Start, Some([A]), cfg);
  }

  /** The handler type is mapped to a factory type that does not build a dispatcher
      factory: the caller gets the invalid-operation error naming both types, no handler
      code runs and the next stage is not called. */
  lemma InvalidFactoryScenario()
    ensures var r := InvokeHandlers(Start, Some([A]), FactoryConfig(NotADispatcherFactory));
            r.1 == Raised(InvalidDispatcherFactory(7, 500)) && r.0.trace == [] && r.0.currentSaga == None
  {
    var cfg := FactoryConfig(NotADispatcherFactory);
    var b := HandlerBinding(S, false, _ => Returns);
    var sA := Start.(currentMessage := Some(A));
    assert cfg.handlersFor(A.messageType) == [b];
    HandlerTurnResult(sA, b, A, cfg);
    var turn := HandlerTurn(sA, b, A, cfg);
    assert DispatchToHandlers(sA, [b], A, cfg) == (turn.0, Some(InvalidDispatcherFactory(7, 500)));
    assert HandleMessages(Start, [A], cfg) == (turn.0, Some(InvalidDispatcherFactory(7, 500)));
  }

  /** A with H1, which sets the flag, and then H2, which would throw. */
  function SkipConfig(): Config
  {
    Config(t => if t == 10 then [Direct(H1, ReturnsAborting), Direct(H2, Throws(9))] else [],
           map[], _ => NotADispatcherFactory)
  }

  /** Scenario: a handler skipped because the flag is set cannot fail the unit. Only H1
      is invoked and the next stage is called, although H2 would have thrown. */
  lemma SkippedHandlerCannotFail()
    ensures var r := InvokeHandlers(Start, Some([A]), SkipConfig());
            r.1 == Done && Nexts(r.0.trace) == 1 && Calls(r.0.trace) == [CallSite(H1, A, Invocation)]
  {
    var cfg := SkipConfig();
    var b1 := Direct(H1, ReturnsAborting);
    var bs := [b1, Direct(H2, Throws(9))];
    assert cfg.handlersFor(A.messageType) == bs;
    assert GetDispatcherFactoryFor(H1.handlerType, cfg) == NoFactory;
    assert SetsAbort(b1, A, cfg) && Succeeds(b1, A, cfg);
    var p := Planned(bs, A, cfg, false);
    assert p == [b1];
    assert ChainSucceeds(bs, A, cfg, false) by { assert p[1..] == []; }
    assert AllSucceed([A], cfg, false) by { assert [A][1..] == []; }
    assert PlannedCalls([A], cfg, false) == CallsOf(p, A, cfg) by {
      PlannedCallsUnfold([A], cfg, false);
      assert [A][1..] == [];
    }
    PlanOfOne(b1, A, cfg);
    InvokeHandlersFollowsPlan(Start, [A], cfg);
    InvokeHandlersScope(Start, Some([A]), cfg);
  }

  /** A with H1 and then H2, which throws; B with H3. */
  function FailConfig(): Config
  {
    Config(t => if t == 10 then [Direct(H1, Returns), Direct(H2, Throws(9))]
                else if t == 20 then [Direct(H3, Returns)] else [],
           map[], _ => NotADispatcherFactory)
  }

  /** Scenario: a direct invocation that throws ends the unit with its cause unwrapped.
      H1 and H2 are invoked, H3 of the later message B never is, A stays the current
      message and the next stage is not called. */
  lemma DirectFailureEndsUnit()
    ensures var r := InvokeHandlers(Start, Some([A, B]), FailConfig());
            r.1 == Raised(Unwrapped(9)) && r.0.currentMessage == Some(A) && Nexts(r.0.trace) == 0 &&
            Calls(r.0.trace) == [CallSite(H1, A, Invocation), CallSite(H2, A, Invocation)]
  {
    var cfg := FailConfig();
    var b1, b2 := Direct(H1, Returns), Direct(H2, Throws(9));
    var bs := [b1, b2];
    assert cfg.handlersFor(A.messageType) == bs;
    assert GetDispatcherFactoryFor(H1.handlerType, cfg) == NoFactory;
    assert GetDispatcherFactoryFor(H2.handlerType, cfg) == NoFactory;
    assert !SetsAbort(b1, A, cfg) && Succeeds(b1, A, cfg) && !Succeeds(b2, A, cfg);
    assert bs[1..] == [b2] && [b2][1..] == [];
    var p := Planned(bs, A, cfg, false);
    assert Planned([b2], A, cfg, false) == [b2];
    assert p == [b1, b2];
    assert FailsAt(bs, A, cfg, FlagAfter([], cfg, false), 1);
    assert TurnError(b2, A, cfg) == Some(Unwrapped(9));
    assert CallsOf(p[..2], A, cfg) == [CallSite(H1, A, Invocation), CallSite(H2, A, Invocation)] by {
      assert p[..2] == p && p[1..] == [b2];
      PlanOfOne(b2, A, cfg);
      assert CallsOf(p, A, cfg) == TurnCalls(b1, A, cfg) + CallsOf([b2], A, cfg);
    }
    assert [] + [A] + [B] == [A, B];
    InvokeHandlersFailsAt(Start, [], A, [B], cfg, 1);
  }
}
