# instant-listen: the deferred request-handler proxy

`instantListen(createHandler)` returns a request handler that a server can
register and start listening with straight away. The real handler is produced
later by the asynchronous factory `createHandler`, which runs only when
`handler.init()` is called. Each call of `init()` runs the factory and yields a
promise of its own. The first of those promises to settle also settles the
one-shot `handler.ready` promise. A request that arrives while `readyHandler`
is unset is held as a continuation chained onto `ready`. When `ready` fulfils,
the continuation calls `readyHandler` with the request's own
`(req, res, next)`. When `ready` rejects, it calls `next(reason)`. Once
`readyHandler` is set, the handler calls it synchronously (the fast path).

The project has four modules:

- `ProxySpec` (`proxy_spec.dfy`) is the closure state as a value `State` and
  its transitions `AfterInit`, `AfterHandle` and `AfterSettle`. `Run` replays
  a sequence of inputs, and `Inv` is the invariant of the closure state.
- `ProxyProperties` (`proxy_properties.dfy`) holds the lemmas: every
  transition preserves `Inv`; every request is delivered exactly once with
  its own arguments; the fast path, the held path and the failure path;
  `ready` settles once.
- `InstantListen.Proxy` (`proxy.dfy`) is the imperative form. The closure
  variables are fields. `Init`, `Handle` and `Settle` are methods proved to
  perform exactly the transitions of `ProxySpec` and to keep `Inv`. `Settle`
  drains the held continuations in a loop (`RunHeld`).
- `Scenarios` (`scenarios.dfy`) replays the repository's tests and two
  end-to-end runs as clients of `Proxy`.

External values are opaque numbers: handler functions, error values, and the
request, response and `next` objects. The factory's outcome is an input of
`Settle`: a value with an `isFunction` flag, or a thrown or rejected error.
Whether the app handler throws for some arguments is a parameter of the
proxy (`behaviour`). On the fast path the throw reaches the caller of
`Handle`. On the held path it is passed to that request's `next` (a
`Rethrow` event).

In the code (index.js:11-26) every `init()` call runs the
factory again. A later run that produces a function reassigns `readyHandler`
(index.js:21), even after `ready` has settled. So after a failure, a later
successful `init()` turns the fast path on while `ready` stays rejected.
`LateSettle` and `Scenarios.ScenarioReinitAfterFailure` state this.

## Model

| member | source | states |
|---|---|---|
| `ProxySpec.Initial` | index.js:1-9 | Constructing the proxy runs no factory: there are no `init()` promises, `ready` is pending, `readyHandler` is unset, and the invariant holds. |
| `ProxySpec.Validate` | index.js:12-20 | The outcome of one `init()` promise. It fulfils exactly when the factory produced a function, and with that function. A thrown or rejected factory becomes a rejection with the same value. A non-function becomes a validation error whose message mentions `getRequestHandler`. |
| `ProxySpec.NotAFunctionMessageMentionsGetRequestHandler` | index.js:16-19 | The validation error's message contains `getRequestHandler`. |
| `ProxyProperties.InitPreservesInv` | index.js:11-26 | `init()` keeps the invariant; it starts one more factory run and has no failure path of its own. |
| `ProxyProperties.HandlePreservesInv` | index.js:28-46 | Every call of the handler keeps the invariant, including "each request is held or delivered exactly once" and "each call uses its request's own arguments". |
| `ProxyProperties.SettlePreservesInv` | index.js:12-24 | The settlement of any factory run keeps the invariant. |
| `ProxyProperties.RunPreservesInv` | index.js:1-52 | The invariant holds after any sequence of requests, `init()` calls and factory settlements. |
| `ProxyProperties.EveryRequestDeliveredOnce` | index.js:28-46 | After any run from construction, each request is either still held and never delivered, or delivered exactly once. Once `ready` has settled, every request has been delivered exactly once. Every call used the request's own arguments. Only functions a factory produced were dispatched to. A fulfilled `ready` implies `readyHandler` is set. |
| `ProxyProperties.ReadySettlesOnce` | index.js:6-9 | Once `ready` has settled, no later event changes it, including more `init()` calls and their outcomes. |
| `ProxyProperties.NoInitNoFactory` | index.js:1-13 | Without an `init()` call the factory never runs and nothing is dispatched or forwarded. Every request stays held, each with its own arguments. |
| `ProxyProperties.HandleFastPath` | index.js:29-33 | With `readyHandler` set, the handler calls it at once with exactly the given arguments. Nothing is held, and what it throws reaches the caller. |
| `ProxyProperties.HandleHeldPath` | index.js:34-40 | With `readyHandler` unset and `ready` pending, the request is sent nowhere and is held with its own arguments. |
| `ProxyProperties.HandleAfterFailure` | index.js:35-44 | With `readyHandler` unset and `ready` settled, `ready` is rejected, and the request's `next` receives the reason without any handler being called. |
| `ProxyProperties.PhaseRouting` | index.js:28-46 | What the handler does in each phase. Uninitialized and Initializing hold the request. Ready dispatches to `readyHandler`. Failed forwards to `next`, unless a later `init()` has set `readyHandler`. |
| `ProxyProperties.DrainDeliveries` | index.js:35-44 | Running distinct held continuations delivers exactly the held requests, each once. |
| `ProxyProperties.DrainFulfilled` | index.js:38-40 | On fulfilment with `f`, every held request is dispatched to `f` with its own arguments. A throw of `f` goes to that request's `next`. Nothing else is logged: no rejection is forwarded, and a `next` is called only with what `f` threw for that request's own arguments. |
| `ProxyProperties.DrainRejected` | index.js:44 | On rejection with `r`, every held request's `next` receives `r`, and nothing is dispatched. |
| `ProxyProperties.SettleFulfils` | index.js:14-40 | The first factory run to produce a function `f` does several things. It sets `readyHandler` to `f`. It fulfils its own promise and `ready` with that same `f`. It dispatches every held request exactly once to `f` with its own arguments, passing a throw of `f` to that request's `next`. Every new log entry is a dispatch to `f` or a rethrow of what `f` threw for that entry's arguments, so no failure is forwarded and no spurious `next(err)` happens. |
| `ProxyProperties.SettleRejects` | index.js:24-44 | The first factory run to fail rejects `ready` with its reason, and `readyHandler` stays unset. Every held request's `next` gets the reason exactly once. Every new log entry is such a forward of that reason, so no handler is called. |
| `ProxyProperties.SettleNotAFunction` | index.js:15-20 | A non-function result rejects that `init()`'s promise with a validation error mentioning `getRequestHandler`. It also rejects `ready` if pending, leaves `readyHandler` unchanged, and dispatches nothing. |
| `ProxyProperties.LateSettle` | index.js:21-24 | A factory run that settles after `ready` leaves `ready`, the log and the held set unchanged. If it produces a function, that function replaces `readyHandler`. |
| `InstantListen.Proxy.constructor` | index.js:1-9 | The new object is in the initial state and keeps the given app-handler behaviour. |
| `InstantListen.Proxy.Init` | index.js:11-26 | Performs `AfterInit` and keeps the invariant. It returns the new run's promise, which is pending, and leaves `ready` unchanged. |
| `InstantListen.Proxy.Handle` | index.js:28-46 | Performs `AfterHandle` and keeps the invariant. It returns what escapes synchronously, which is only a throw on the fast path. |
| `InstantListen.Proxy.Settle` | index.js:12-24 | Performs `AfterSettle` and keeps the invariant: it validates the result, assigns `readyHandler`, settles the run's promise and `ready`, and drains the held continuations. |
| `InstantListen.Proxy.RunHeld` | index.js:35-44 | Its loop produces exactly the calls the held continuations make (`Drain`), in registration order. |

## Left out

- Promise and microtask scheduling. A settlement is one atomic step. It assigns `readyHandler`, settles the run's promise and `ready`, and runs every held continuation. A continuation of a second `init()` that interleaves with that draining is not modelled.
- The order among held requests. The model drains them in registration order, but no lemma states that order as a guarantee. It comes from the promise implementation.
- The asynchronous hop of a request arriving after `ready` has rejected. Its `next(reason)` is logged within the `Handle` call.
- The factory runs in a microtask after `init()` returns (index.js:12-13). The model counts it as started by `Init`.
- JavaScript `typeof` on arbitrary values. A produced value is an identity plus an `isFunction` flag.
- The app handler beyond "called with these arguments" and "throws or not". Its return value, and any promise it returns, are not modelled.
- `InstantListen.Proxy.Handle` and `ProxySpec.Drain`: a missing `next` is not modelled. `Args` always carries a `next`, but the handler can also be mounted as `http.createServer(handler)`, which passes only `(req, res)`. Then `.catch(next)` (index.js:44) calls nothing, and a rejection of `ready` or a throw of the app handler on the held path becomes an unhandled rejection. The model logs a `Forward` or `Rethrow` to `next` in that case too.
- A `next` that itself throws inside `.catch(next)`, which would be an unhandled rejection.
- Who observes `handler.ready`. The model exposes it as the `ready` field. Reacting to its rejection, such as logging and exiting, is the process owner's concern.
- demo/server.js is not part of this model. It holds express and Next.js wiring, environment parsing, `server.listen` and `process.exit`.
- `InstantListen.Proxy.Settle` requires the run to exist, since the event loop only settles promises that `init()` created. `ProxySpec.AfterSettle` treats a missing or already settled run as a no-op.
