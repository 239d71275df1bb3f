/** The deferred request-handler proxy of instant-listen, as a deterministic
    state machine over values.

    `instantListen(createHandler)` returns a request handler at once. Each call
    of `init()` runs the factory once and yields its own promise (an
    "attempt"); the first attempt to settle also settles the one-shot `ready`
    promise. Requests that arrive while `readyHandler` is unset and `ready` is
    pending are held as continuations chained onto `ready` and are delivered
    when it settles. */
module ProxySpec {

  datatype Option<T> = None | Some(value: T)

  /** Identities of the JavaScript values the proxy passes along but never
      inspects: handler functions and thrown/rejected error values. */
  type HandlerId = nat
  type ErrorValue = nat

  /** The positional arguments `(req, res, next)` of one call of the handler. */
  datatype Args = Args(req: nat, res: nat, next: nat)

  /** Message of the error `init()` raises when the factory does not produce
      a function (index.js:16-19). */
  const NotAFunctionMessage: string :=
    "The `createHandler` argument must return a function that handles requests. " +
    "If you are using the standard Next.js request handler, return `app.getRequestHandler()`."

  /** Why a promise was rejected: the factory threw or its promise rejected
      (the value passes through unmodified), or it produced a non-function. */
  datatype Reason = Thrown(error: ErrorValue) | InvalidHandler(message: string)

  /** The state of a promise: `ready`, or the promise of one `init()` call. */
  datatype Signal = Pending | Fulfilled(handler: HandlerId) | Rejected(reason: Reason)

  /** A value the factory produced, reduced to its identity and whether
      `typeof value === "function"`. */
  datatype Value = Value(id: HandlerId, isFunction: bool)

  /** How the factory (including any promise it returned) settled. */
  datatype FactoryOutcome = Returned(value: Value) | Threw(error: ErrorValue)

  /** A held request: the continuation chained onto `ready` closes over the
      arguments of its own call. `request` numbers the calls in arrival order. */
  datatype Held = Held(request: nat, args: Args)

  /** What the proxy causes to be called, in the order it happens.
      Dispatch: the app handler is called with the request's arguments.
      Forward: the request's `next` is called with the rejection reason.
      Rethrow: on the held path the app handler threw and `next` receives it. */
  datatype Event =
    | Dispatch(request: nat, handler: HandlerId, args: Args)
    | Forward(request: nat, args: Args, reason: Reason)
    | Rethrow(request: nat, args: Args, error: ErrorValue)

  /** Whether the app handler `h` throws when called with `a`: the handler is
      external code, so its behaviour is a parameter of the model. */
  type AppBehaviour = (HandlerId, Args) -> Option<ErrorValue>

  /** The closure state of one proxy.
      attempts: the promise of each `init()` call so far, in call order;
                its length is the number of times the factory was run.
      ready, readyHandler: the closure variables of the same names.
      received: the arguments of every request, in arrival order.
      pending: continuations chained onto `ready` and not yet run.
      log: every call the proxy has made into the app or into `next`. */
  datatype State = State(
    attempts: seq<Signal>,
    ready: Signal,
    readyHandler: Option<HandlerId>,
    received: seq<Args>,
    pending: seq<Held>,
    log: seq<Event>)

  /** The four phases of the proxy's life. */
  datatype Phase = Uninitialized | Initializing | Ready(handler: HandlerId) | Failed(reason: Reason)

  function PhaseOf(s: State): Phase {
    match s.ready
    case Fulfilled(h) => Ready(h)
    case Rejected(r) => Failed(r)
    case Pending => if s.attempts == [] then Uninitialized else Initializing
  }

  /** `text` contains `word` as a contiguous substring. */
  ghost predicate Mentions(text: string, word: string) {
    exists i :: 0 <= i <= |text| && word <= text[i..]
  }

  lemma NotAFunctionMessageMentionsGetRequestHandler()
    ensures Mentions(NotAFunctionMessage, "getRequestHandler")
  {
    var before := "The `createHandler` argument must return a function that handles requests. " +
                  "If you are using the standard Next.js request handler, return `app.";
    var word, after := "getRequestHandler", "()`.";
    assert NotAFunctionMessage == before + word + after;
    assert NotAFunctionMessage[|before|..] == word + after;
  }

  /** The outcome of one `init()` promise once the factory has settled:
      the `typeof` check of index.js:15 and the pass-through of failures. */
  function Validate(o: FactoryOutcome): (r: Signal)
    ensures r != Pending
    ensures r.Fulfilled? <==> o.Returned? && o.value.isFunction
    ensures r.Fulfilled? ==> r.handler == o.value.id
    ensures o.Threw? ==> r == Rejected(Thrown(o.error))
    ensures o.Returned? && !o.value.isFunction ==>
              r.Rejected? && r.reason.InvalidHandler? && Mentions(r.reason.message, "getRequestHandler")
  {
    NotAFunctionMessageMentionsGetRequestHandler();
    match o
    case Threw(e) => Rejected(Thrown(e))
    case Returned(v) => if v.isFunction then Fulfilled(v.id) else Rejected(InvalidHandler(NotAFunctionMessage))
  }

  /** What the continuation of one held request does once `ready` has
      settled as `sig` (index.js:38-44). On fulfilment it calls the handler
      (then equal to `readyHandler`) and routes a throw to `next`. */
  function Deliver(sig: Signal, h: Held, b: AppBehaviour): seq<Event> {
    match sig
    case Pending => []
    case Fulfilled(f) =>
      [Dispatch(h.request, f, h.args)] +
      (match b(f, h.args)
       case Some(e) => [Rethrow(h.request, h.args, e)]
       case None => [])
    case Rejected(r) => [Forward(h.request, h.args, r)]
  }

  /** The continuations of `held`, run in registration order. */
  function Drain(sig: Signal, held: seq<Held>, b: AppBehaviour): seq<Event>
    decreases |held|
  {
    if held == [] then []
    else Drain(sig, held[..|held| - 1], b) + Deliver(sig, held[|held| - 1], b)
  }

  /** An event that settles request `id`: a dispatch or a forward of the
      rejection (a rethrow always follows a dispatch of the same request). */
  predicate Delivers(e: Event, id: nat) {
    !e.Rethrow? && e.request == id
  }

  /** How many times request `id` was delivered in `log`. */
  function Deliveries(log: seq<Event>, id: nat): nat
    decreases |log|
  {
    if log == [] then 0
    else Deliveries(log[..|log| - 1], id) + (if Delivers(log[|log| - 1], id) then 1 else 0)
  }

  predicate Holds(held: seq<Held>, id: nat) {
    exists j :: 0 <= j < |held| && held[j].request == id
  }

  predicate Distinct(held: seq<Held>) {
    forall i, j :: 0 <= i < j < |held| ==> held[i].request != held[j].request
  }

  /** Every held continuation kept the arguments its request arrived with. */
  predicate HeldAgree(held: seq<Held>, received: seq<Args>) {
    forall j :: 0 <= j < |held| ==> held[j].request < |received| && held[j].args == received[held[j].request]
  }

  /** Every call in the log used the arguments of the request it serves. */
  predicate EventsAgree(log: seq<Event>, received: seq<Args>) {
    forall i :: 0 <= i < |log| ==> log[i].request < |received| && log[i].args == received[log[i].request]
  }

  /** No request was dispatched to anything but a function some `init()`
      call produced. */
  predicate DispatchesProduced(log: seq<Event>, attempts: seq<Signal>) {
    forall i :: 0 <= i < |log| && log[i].Dispatch? ==> Fulfilled(log[i].handler) in attempts
  }

  predicate AllPending(attempts: seq<Signal>) {
    forall k :: 0 <= k < |attempts| ==> attempts[k].Pending?
  }

  /** The invariant of the closure state.
      - `ready` is pending exactly while no attempt has settled, and once
        settled it carries the outcome of one of them;
      - `readyHandler` only ever holds a function an attempt fulfilled with,
        and is set whenever `ready` is fulfilled;
      - held continuations exist only while `ready` is pending, each for a
        distinct request and with that request's own arguments;
      - every request is held (delivered zero times) or delivered exactly once. */
  ghost predicate Inv(s: State) {
    && (s.ready.Pending? <==> AllPending(s.attempts))
    && (!s.ready.Pending? ==> s.ready in s.attempts)
    && (s.readyHandler.Some? ==> Fulfilled(s.readyHandler.value) in s.attempts)
    && (s.ready.Fulfilled? ==> s.readyHandler.Some?)
    && (!s.ready.Pending? ==> s.pending == [])
    && HeldAgree(s.pending, s.received)
    && Distinct(s.pending)
    && EventsAgree(s.log, s.received)
    && DispatchesProduced(s.log, s.attempts)
    && (forall id :: 0 <= id < |s.received| ==>
          Deliveries(s.log, id) == if Holds(s.pending, id) then 0 else 1)
  }

  /** The state right after `instantListen(createHandler)`: the factory has
      not run and `ready` is pending (index.js:1-9). */
  function Initial(): (s: State)
    ensures Inv(s)
    ensures s.attempts == [] && s.ready == Pending && s.readyHandler == None
    ensures PhaseOf(s) == Uninitialized
  {
    State([], Pending, None, [], [], [])
  }

  /** `init()` (index.js:11-26) starts one more run of the factory; its
      promise is pending until the factory settles. Nothing else changes
      synchronously: `init()` never throws. */
  function AfterInit(s: State): State {
    s.(attempts := s.attempts + [Pending])
  }

  /** `handler(req, res, next)` (index.js:28-46). */
  function AfterHandle(s: State, a: Args, b: AppBehaviour): State {
    var id := |s.received|;
    var t := s.(received := s.received + [a]);
    if s.readyHandler.Some? then
      // fast path: call the handler synchronously, nothing is queued
      t.(log := s.log + [Dispatch(id, s.readyHandler.value, a)])
    else if s.ready.Pending? then
      // held path: chain a continuation onto `ready`
      t.(pending := s.pending + [Held(id, a)])
    else
      // held path on an already settled `ready` (rejected, by Inv): the
      // continuation runs without waiting for another settlement
      t.(log := s.log + Deliver(s.ready, Held(id, a), b))
  }

  /** What escapes `handler(req, res, next)` synchronously: only on the fast
      path can an exception of the app handler reach the caller. */
  function Escapes(s: State, a: Args, b: AppBehaviour): Option<ErrorValue> {
    if s.readyHandler.Some? then b(s.readyHandler.value, a) else None
  }

  /** The factory run by the `k`-th `init()` settles with `o`
      (index.js:12-24): the result is validated, `readyHandler` is assigned
      on success, the attempt's promise settles, and `ready` adopts that
      outcome unless it has already settled, which runs every held
      continuation. A promise settles once, so settling an attempt again, or
      one that was never started, changes nothing. */
  function AfterSettle(s: State, k: nat, o: FactoryOutcome, b: AppBehaviour): State {
    if k >= |s.attempts| || !s.attempts[k].Pending? then s
    else
      var v := Validate(o);
      var t := s.(attempts := s.attempts[k := v],
                  readyHandler := if v.Fulfilled? then Some(v.handler) else s.readyHandler);
      if s.ready.Pending? then
        t.(ready := v, pending := [], log := s.log + Drain(v, s.pending, b))
      else t
  }

  /** The events that drive a proxy. */
  datatype Input =
    | Request(args: Args)
    | CallInit
    | FactorySettles(attempt: nat, outcome: FactoryOutcome)

  function Step(s: State, i: Input, b: AppBehaviour): State {
    match i
    case Request(a) => AfterHandle(s, a, b)
    case CallInit => AfterInit(s)
    case FactorySettles(k, o) => AfterSettle(s, k, o, b)
  }

  function Run(s: State, inputs: seq<Input>, b: AppBehaviour): State
    decreases |inputs|
  {
    if inputs == [] then s else Run(Step(s, inputs[0], b), inputs[1..], b)
  }
}
