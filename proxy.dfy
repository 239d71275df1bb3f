/** The object `instantListen(createHandler)` returns: its closure variables
    become fields, `init()` and the handler itself become methods, and the
    settlement of a factory run, which the event loop delivers later, is the
    method `Settle`. Each method is proved to perform exactly the transition
    of ProxySpec and to keep its invariant. */
module InstantListen {
  import opened ProxySpec
  import opened ProxyProperties

  class Proxy {
    /** Whether the app handler throws for given arguments (external code). */
    const behaviour: AppBehaviour

    /** The promise of each `init()` call so far. */
    var attempts: seq<Signal>
    /** The `ready` promise, exposed as `handler.ready`. */
    var ready: Signal
    var readyHandler: Option<HandlerId>
    /** The arguments of every request so far, in arrival order. */
    var received: seq<Args>
    /** The continuations chained onto `ready` and not yet run. */
    var pending: seq<Held>
    /** Every call made into the app handler or into a `next`. */
    var log: seq<Event>

    function Model(): State
      reads this
    {
      State(attempts, ready, readyHandler, received, pending, log)
    }

    ghost predicate Valid()
      reads this
    {
      Inv(Model())
    }

    /** `instantListen(createHandler)`: the factory is not run. */
    constructor (behaviour: AppBehaviour)
      ensures Valid()
      ensures Model() == Initial() && this.behaviour == behaviour
    {
      this.behaviour := behaviour;
      attempts := [];
      ready := Pending;
      readyHandler := None;
      received := [];
      pending := [];
      log := [];
    }

    /** `handler.init()`: runs the factory once more and returns (the index
        of) that run's promise, which is pending. It never fails
        synchronously and leaves `ready` alone. */
    method Init() returns (attempt: nat)
      requires Valid()
      modifies this
      ensures Valid()
      ensures Model() == AfterInit(old(Model()))
      ensures attempt == |old(attempts)| && attempt < |attempts| && attempts[attempt] == Pending
      ensures ready == old(ready)
    {
      InitPreservesInv(Model());
      attempt := |attempts|;
      attempts := attempts + [Pending];
    }

    /** `handler(req, res, next)`. Returns what the app handler throws on the
        fast path, which is not caught. */
    method Handle(args: Args) returns (escaped: Option<ErrorValue>)
      requires Valid()
      modifies this
      ensures Valid()
      ensures Model() == AfterHandle(old(Model()), args, behaviour)
      ensures escaped == Escapes(old(Model()), args, behaviour)
    {
      HandlePreservesInv(Model(), args, behaviour);
      var request := |received|;
      received := received + [args];
      if readyHandler.Some? {
        log := log + [Dispatch(request, readyHandler.value, args)];
        escaped := behaviour(readyHandler.value, args);
      } else if ready.Pending? {
        pending := pending + [Held(request, args)];
        escaped := None;
      } else {
        // `ready` has already been rejected: the continuation passes the
        // reason to this request's `next`
        log := log + [Forward(request, args, ready.reason)];
        escaped := None;
      }
    }

    /** The factory run by `init()` call number `attempt` has settled with
        `outcome`. */
    method Settle(attempt: nat, outcome: FactoryOutcome)
      requires Valid()
      requires attempt < |attempts|
      modifies this
      ensures Valid()
      ensures Model() == AfterSettle(old(Model()), attempt, outcome, behaviour)
    {
      SettlePreservesInv(Model(), attempt, outcome, behaviour);
      if !attempts[attempt].Pending? {
        return;
      }
      var result: Signal;
      match outcome {
        case Threw(e) =>
          result := Rejected(Thrown(e));
        case Returned(v) =>
          if v.isFunction {
            readyHandler := Some(v.id);
            result := Fulfilled(v.id);
          } else {
            result := Rejected(InvalidHandler(NotAFunctionMessage));
          }
      }
      assert result == Validate(outcome);
      attempts := attempts[attempt := result];
      if ready.Pending? {
        ready := result;
        var held := pending;
        pending := [];
        var delivered := RunHeld(result, held);
        log := log + delivered;
      }
    }

    /** Runs the continuations `held` once `ready` has settled as `result`:
        on fulfilment each calls `readyHandler` with its own arguments and
        passes a throw to its own `next` (index.js:38-40, 44); on rejection
        each passes the reason to its own `next` (index.js:44). */
    method RunHeld(result: Signal, held: seq<Held>) returns (delivered: seq<Event>)
      requires !result.Pending?
      requires result.Fulfilled? ==> readyHandler == Some(result.handler)
      ensures delivered == Drain(result, held, behaviour)
    {
      delivered := [];
      var i := 0;
      while i < |held|
        invariant 0 <= i <= |held|
        invariant delivered == Drain(result, held[..i], behaviour)
      {
        var h := held[i];
        match result {
          case Fulfilled(_) =>
            delivered := delivered + [Dispatch(h.request, readyHandler.value, h.args)];
            match behaviour(readyHandler.value, h.args) {
              case Some(e) => delivered := delivered + [Rethrow(h.request, h.args, e)];
              case None =>
            }
          case Rejected(r) =>
            delivered := delivered + [Forward(h.request, h.args, r)];
        }
        assert held[..i + 1] == held[..i] + [h];
        i := i + 1;
      }
      assert held[..|held|] == held;
    }
  }
}
