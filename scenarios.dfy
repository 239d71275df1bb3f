/** The behaviours the repository's tests exercise, and two end-to-end
    scenarios, as clients of the `Proxy` object whose assertions follow from
    its contracts alone. */
module Scenarios {
  import opened ProxySpec
  import opened InstantListen

  /** An app handler that never throws. */
  function Quiet(h: HandlerId, a: Args): Option<ErrorValue> {
    None
  }

  /** index.test.js:11-20: a request made after `init()` but before the
      factory has settled is sent to the produced handler once it settles. */
  method CallsCreatedHandlerWhenReady(app: HandlerId, a: Args)
  {
    var proxy := new Proxy(Quiet);
    var attempt := proxy.Init();
    var _ := proxy.Handle(a);
    assert proxy.log == [] && proxy.pending == [Held(0, a)];
    proxy.Settle(attempt, Returned(Value(app, true)));
    assert proxy.log == Drain(Fulfilled(app), [Held(0, a)], Quiet);
    assert proxy.log == [Dispatch(0, app, a)] && proxy.ready == Fulfilled(app);
  }

  /** index.test.js:22-31: once `ready` has fulfilled a request is sent to
      the handler synchronously, within the call itself. */
  method CallsCreatedHandlerImmediatelyIfReady(app: HandlerId, a: Args)
  {
    var proxy := new Proxy(Quiet);
    var attempt := proxy.Init();
    proxy.Settle(attempt, Returned(Value(app, true)));
    assert proxy.ready == Fulfilled(app);
    var escaped := proxy.Handle(a);
    assert proxy.log == [Dispatch(0, app, a)] && proxy.pending == [] && escaped == None;
  }

  /** index.test.js:34-38: constructing the proxy does not run the factory. */
  method DoesNotCallCreateHandlerWithoutInit(a: Args)
  {
    var proxy := new Proxy(Quiet);
    assert proxy.attempts == [];
    var _ := proxy.Handle(a);
    assert proxy.attempts == [] && proxy.log == [] && proxy.pending == [Held(0, a)];
  }

  /** index.test.js:40-44: a factory that does not produce a function makes
      `init()`'s promise reject with an error mentioning `getRequestHandler`. */
  method RejectsANonFunction(x: HandlerId)
  {
    var proxy := new Proxy(Quiet);
    var attempt := proxy.Init();
    proxy.Settle(attempt, Returned(Value(x, false)));
    assert proxy.attempts[attempt].Rejected? && proxy.attempts[attempt].reason.InvalidHandler?;
    assert Mentions(proxy.attempts[attempt].reason.message, "getRequestHandler");
    assert proxy.ready == proxy.attempts[attempt] && proxy.readyHandler == None;
  }

  /** index.test.js:46-52: `ready` fulfils with the handler the factory's
      promise resolved to. */
  method ResolvesReadyWithTheHandler(app: HandlerId)
  {
    var proxy := new Proxy(Quiet);
    var attempt := proxy.Init();
    assert proxy.ready == Pending;
    proxy.Settle(attempt, Returned(Value(app, true)));
    assert proxy.ready == Fulfilled(app) && proxy.attempts[attempt] == Fulfilled(app);
  }

  /** A request before and one after fulfilment are each dispatched once to
      the produced handler with their own arguments. */
  method ScenarioFulfilled(app: HandlerId, a1: Args, a2: Args)
  {
    var proxy := new Proxy(Quiet);
    var attempt := proxy.Init();
    var escaped := proxy.Handle(a1);
    proxy.Settle(attempt, Returned(Value(app, true)));
    assert proxy.log == Drain(Fulfilled(app), [Held(0, a1)], Quiet);
    escaped := proxy.Handle(a2);
    assert proxy.log == [Dispatch(0, app, a1), Dispatch(1, app, a2)];
  }

  /** The factory's promise rejects with `e`: a request before and one after
      the rejection each get `next(e)` once, and no handler is called. */
  method ScenarioRejected(e: ErrorValue, a1: Args, a2: Args)
  {
    var proxy := new Proxy(Quiet);
    var attempt := proxy.Init();
    var escaped := proxy.Handle(a1);
    proxy.Settle(attempt, Threw(e));
    assert proxy.log == Drain(Rejected(Thrown(e)), [Held(0, a1)], Quiet);
    escaped := proxy.Handle(a2);
    assert proxy.log == [Forward(0, a1, Thrown(e)), Forward(1, a2, Thrown(e))];
    assert proxy.ready == Rejected(Thrown(e));
  }

  /** A second `init()` whose factory produces a function after the first
      has failed: `ready` stays rejected, yet later requests take the fast
      path to the new function. */
  method ScenarioReinitAfterFailure(e: ErrorValue, app: HandlerId, a: Args)
  {
    var proxy := new Proxy(Quiet);
    var first := proxy.Init();
    proxy.Settle(first, Threw(e));
    var second := proxy.Init();
    proxy.Settle(second, Returned(Value(app, true)));
    var _ := proxy.Handle(a);
    assert proxy.ready == Rejected(Thrown(e)) && proxy.readyHandler == Some(app);
    assert proxy.log == [Dispatch(0, app, a)];
  }
}
