/** What the deferred-handler proxy promises, proved about the state machine
    of ProxySpec: the invariant every event preserves, delivery of each request
    exactly once with its own arguments, the fast and held paths, and the
    one-shot `ready` signal. */
module ProxyProperties {
  import opened ProxySpec

  // ---------------------------------------------------------------------
  // Counting deliveries

  lemma {:induction false} DeliveriesAppend(a: seq<Event>, c: seq<Event>, id: nat)
    ensures Deliveries(a + c, id) == Deliveries(a, id) + Deliveries(c, id)
    decreases |c|
  {
    if c == [] {
      assert a + c == a;
    } else {
      var c' := c[..|c| - 1];
      assert (a + c)[..|a + c| - 1] == a + c';
      assert (a + c)[|a + c| - 1] == c[|c| - 1];
      DeliveriesAppend(a, c', id);
    }
  }

  /** A log with no event for `id` delivers it zero times. */
  lemma {:induction false} DeliveriesAbsent(log: seq<Event>, id: nat)
    requires forall i :: 0 <= i < |log| ==> log[i].request != id
    ensures Deliveries(log, id) == 0
    decreases |log|
  {
    if log != [] {
      DeliveriesAbsent(log[..|log| - 1], id);
    }
  }

  /** One continuation, once `ready` has settled, delivers its own request
      once and no other request. */
  lemma DeliverOnce(sig: Signal, h: Held, b: AppBehaviour, id: nat)
    requires !sig.Pending?
    ensures Deliveries(Deliver(sig, h, b), id) == if h.request == id then 1 else 0
  {
    var d := Deliver(sig, h, b);
    assert Deliveries(d[..1], id) == if h.request == id then 1 else 0 by {
      assert d[..1][..0] == [];
    }
    if |d| == 2 {
      assert d[..|d| - 1] == d[..1];
    } else {
      assert d == d[..1];
    }
  }

  /** A request is held by a sequence of continuations exactly when it is
      held by all but the last one or by the last one. */
  lemma HoldsLast(held: seq<Held>, id: nat)
    requires held != []
    ensures Holds(held, id) <==> Holds(held[..|held| - 1], id) || held[|held| - 1].request == id
  {
    var n := |held| - 1;
    if Holds(held[..n], id) {
      var j :| 0 <= j < n && held[..n][j].request == id;
      assert held[j].request == id;
    }
    if Holds(held, id) {
      var j :| 0 <= j < |held| && held[j].request == id;
      if j < n {
        assert held[..n][j].request == id;
      }
    }
  }

  /** Draining distinct held requests delivers exactly those requests, each
      once. */
  lemma {:induction false} DrainDeliveries(sig: Signal, held: seq<Held>, b: AppBehaviour, id: nat)
    requires !sig.Pending?
    requires Distinct(held)
    ensures Deliveries(Drain(sig, held, b), id) == if Holds(held, id) then 1 else 0
    decreases |held|
  {
    if held != [] {
      var n := |held| - 1;
      var rest := held[..n];
      assert Distinct(rest);
      DrainDeliveries(sig, rest, b, id);
      DeliveriesAppend(Drain(sig, rest, b), Deliver(sig, held[n], b), id);
      DeliverOnce(sig, held[n], b, id);
      HoldsLast(held, id);
      if Holds(rest, id) {
        var j :| 0 <= j < |rest| && rest[j].request == id;
        assert held[j] == rest[j];
      }
    }
  }

  // ---------------------------------------------------------------------
  // What draining calls

  lemma EventsAgreeAppend(a: seq<Event>, c: seq<Event>, received: seq<Args>)
    requires EventsAgree(a, received) && EventsAgree(c, received)
    ensures EventsAgree(a + c, received)
  {
    forall i | 0 <= i < |a + c|
      ensures (a + c)[i].request < |received| && (a + c)[i].args == received[(a + c)[i].request]
    {
      if i >= |a| {
        assert (a + c)[i] == c[i - |a|];
      }
    }
  }

  /** Every call a drain makes uses the arguments its request arrived with. */
  lemma {:induction false} DrainAgrees(sig: Signal, held: seq<Held>, b: AppBehaviour, received: seq<Args>)
    requires HeldAgree(held, received)
    ensures EventsAgree(Drain(sig, held, b), received)
    decreases |held|
  {
    if held != [] {
      var n := |held| - 1;
      DrainAgrees(sig, held[..n], b, received);
      EventsAgreeAppend(Drain(sig, held[..n], b), Deliver(sig, held[n], b), received);
    }
  }

  /** On fulfilment with `f`, every held request is dispatched to `f` with
      its own arguments, a throw of `f` is passed to that request's `next`,
      and nothing else happens: no rejection is forwarded and a `next` is
      called only with what `f` threw for that request's arguments. */
  lemma {:induction false} DrainFulfilled(f: HandlerId, held: seq<Held>, b: AppBehaviour)
    ensures forall i :: 0 <= i < |Drain(Fulfilled(f), held, b)| ==>
              var e := Drain(Fulfilled(f), held, b)[i];
              (e.Dispatch? && e.handler == f) || (e.Rethrow? && b(f, e.args) == Some(e.error))
    ensures forall j :: 0 <= j < |held| ==>
              Dispatch(held[j].request, f, held[j].args) in Drain(Fulfilled(f), held, b)
    ensures forall j :: 0 <= j < |held| && b(f, held[j].args).Some? ==>
              Rethrow(held[j].request, held[j].args, b(f, held[j].args).value) in Drain(Fulfilled(f), held, b)
    decreases |held|
  {
    if held != [] {
      var n := |held| - 1;
      var rest := held[..n];
      DrainFulfilled(f, rest, b);
      var d: seq<Event>, last: seq<Event> := Drain(Fulfilled(f), rest, b), Deliver(Fulfilled(f), held[n], b);
      assert Drain(Fulfilled(f), held, b) == d + last;
      forall i | 0 <= i < |d + last|
        ensures var e := (d + last)[i];
                (e.Dispatch? && e.handler == f) || (e.Rethrow? && b(f, e.args) == Some(e.error))
      {
        if i >= |d| {
          assert (d + last)[i] == last[i - |d|];
        }
      }
      forall j | 0 <= j < |held|
        ensures Dispatch(held[j].request, f, held[j].args) in d + last
        ensures b(f, held[j].args).Some? ==>
                  Rethrow(held[j].request, held[j].args, b(f, held[j].args).value) in d + last
      {
        if j < n {
          assert held[j] == rest[j];
        } else {
          assert last[0] == Dispatch(held[j].request, f, held[j].args);
          if b(f, held[j].args).Some? {
            assert last[1] == Rethrow(held[j].request, held[j].args, b(f, held[j].args).value);
          }
        }
      }
    }
  }

  /** On rejection with `r`, every held request's `next` receives `r` and
      nothing is dispatched to a handler. */
  lemma {:induction false} DrainRejected(r: Reason, held: seq<Held>, b: AppBehaviour)
    ensures forall i :: 0 <= i < |Drain(Rejected(r), held, b)| ==>
              Drain(Rejected(r), held, b)[i].Forward? && Drain(Rejected(r), held, b)[i].reason == r
    ensures forall j :: 0 <= j < |held| ==>
              Forward(held[j].request, held[j].args, r) in Drain(Rejected(r), held, b)
    decreases |held|
  {
    if held != [] {
      var n := |held| - 1;
      var rest := held[..n];
      DrainRejected(r, rest, b);
      var d: seq<Event>, last: seq<Event> := Drain(Rejected(r), rest, b), Deliver(Rejected(r), held[n], b);
      assert Drain(Rejected(r), held, b) == d + last;
      forall i | 0 <= i < |d + last|
        ensures (d + last)[i].Forward? && (d + last)[i].reason == r
      {
        if i >= |d| {
          assert (d + last)[i] == last[i - |d|];
        }
      }
      forall j | 0 <= j < |held|
        ensures Forward(held[j].request, held[j].args, r) in d + last
      {
        if j < n {
          assert held[j] == rest[j];
        } else {
          assert last[0] == Forward(held[j].request, held[j].args, r);
        }
      }
    }
  }

  // ---------------------------------------------------------------------
  // The invariant is preserved by every event

  /** Settling a pending promise leaves every settled one in place. */
  lemma SettledStay(attempts: seq<Signal>, k: nat, v: Signal)
    requires k < |attempts| && attempts[k].Pending?
    ensures forall x :: x in attempts && !x.Pending? ==> x in attempts[k := v]
  {
    forall x | x in attempts && !x.Pending?
      ensures x in attempts[k := v]
    {
      var j :| 0 <= j < |attempts| && attempts[j] == x;
      assert attempts[k := v][j] == x;
    }
  }

  /** While `ready` is pending no attempt has settled, so `readyHandler`
      is unset. */
  lemma NoHandlerWhilePending(s: State)
    requires Inv(s) && s.ready.Pending?
    ensures s.readyHandler.None?
  {
  }

  lemma InitPreservesInv(s: State)
    requires Inv(s)
    ensures Inv(AfterInit(s))
  {
    var t := AfterInit(s);
    assert AllPending(t.attempts) <==> AllPending(s.attempts) by {
      if AllPending(s.attempts) {
        forall k | 0 <= k < |t.attempts| ensures t.attempts[k].Pending? {
          if k < |s.attempts| { assert t.attempts[k] == s.attempts[k]; }
        }
      }
      if AllPending(t.attempts) {
        forall k | 0 <= k < |s.attempts| ensures s.attempts[k].Pending? {
          assert t.attempts[k] == s.attempts[k];
        }
      }
    }
  }

  /** After `handler(...)`, a log of `s` followed by one more event for the
      new request keeps every request's delivery count right. */
  lemma AppendedForNewRequest(s: State, t: State, a: Args, e: Event)
    requires Inv(s)
    requires t.received == s.received + [a] && t.pending == s.pending
    requires t.log == s.log + [e] && e.request == |s.received| && Delivers(e, e.request)
    ensures forall id :: 0 <= id < |t.received| ==>
              Deliveries(t.log, id) == if Holds(t.pending, id) then 0 else 1
  {
    forall id | 0 <= id < |t.received|
      ensures Deliveries(t.log, id) == if Holds(t.pending, id) then 0 else 1
    {
      DeliveriesAppend(s.log, [e], id);
      assert [e][..0] == [];
      if id == |s.received| {
        DeliveriesAbsent(s.log, id);
      }
    }
  }

  /** The held path: the new continuation keeps its request's arguments and
      the request is not delivered yet. */
  lemma HeldHandlePreservesInv(s: State, a: Args, b: AppBehaviour)
    requires Inv(s) && s.readyHandler.None? && s.ready.Pending?
    ensures Inv(AfterHandle(s, a, b))
  {
    var t := AfterHandle(s, a, b);
    var id := |s.received|;
    assert t == s.(received := s.received + [a], pending := s.pending + [Held(id, a)]);
    assert t.pending[..|s.pending|] == s.pending;
    forall i | 0 <= i < |t.pending|
      ensures t.pending[i].request < |t.received| && t.pending[i].args == t.received[t.pending[i].request]
    {
      if i < |s.pending| { assert t.pending[i] == s.pending[i]; }
    }
    forall i, j | 0 <= i < j < |t.pending|
      ensures t.pending[i].request != t.pending[j].request
    {
      assert t.pending[i] == s.pending[i];
      if j < |s.pending| { assert t.pending[j] == s.pending[j]; }
    }
    forall r | 0 <= r < |t.received|
      ensures Deliveries(t.log, r) == if Holds(t.pending, r) then 0 else 1
    {
      HoldsLast(t.pending, r);
      if r == id {
        DeliveriesAbsent(s.log, r);
      }
    }
  }

  lemma HandlePreservesInv(s: State, a: Args, b: AppBehaviour)
    requires Inv(s)
    ensures Inv(AfterHandle(s, a, b))
  {
    var t := AfterHandle(s, a, b);
    var id := |s.received|;
    if s.readyHandler.Some? {
      AppendedForNewRequest(s, t, a, Dispatch(id, s.readyHandler.value, a));
    } else if s.ready.Pending? {
      HeldHandlePreservesInv(s, a, b);
    } else {
      assert t.log == s.log + [Forward(id, a, s.ready.reason)];
      AppendedForNewRequest(s, t, a, Forward(id, a, s.ready.reason));
    }
  }

  /** A drain dispatches only to the handler `ready` fulfilled with. */
  lemma DrainDispatchesTo(v: Signal, held: seq<Held>, b: AppBehaviour)
    requires !v.Pending?
    ensures forall i :: 0 <= i < |Drain(v, held, b)| && Drain(v, held, b)[i].Dispatch? ==>
              v == Fulfilled(Drain(v, held, b)[i].handler)
  {
    match v {
      case Fulfilled(f) => DrainFulfilled(f, held, b);
      case Rejected(r) => DrainRejected(r, held, b);
    }
  }

  /** The first attempt to settle settles `ready` and drains the held
      continuations. */
  lemma FirstSettlePreservesInv(s: State, k: nat, o: FactoryOutcome, b: AppBehaviour)
    requires Inv(s)
    requires k < |s.attempts| && s.attempts[k].Pending? && s.ready.Pending?
    ensures Inv(AfterSettle(s, k, o, b))
  {
    var v := Validate(o);
    var d := Drain(v, s.pending, b);
    var t := AfterSettle(s, k, o, b);
    NoHandlerWhilePending(s);
    assert t == State(s.attempts[k := v], v, if v.Fulfilled? then Some(v.handler) else None,
                      s.received, [], s.log + d);
    SettledStay(s.attempts, k, v);
    assert t.attempts[k] == v;
    DrainAgrees(v, s.pending, b, s.received);
    EventsAgreeAppend(s.log, d, s.received);
    DrainDispatchesTo(v, s.pending, b);
    assert DispatchesProduced(t.log, t.attempts) by {
      forall i | 0 <= i < |t.log| && t.log[i].Dispatch?
        ensures Fulfilled(t.log[i].handler) in t.attempts
      {
        if i >= |s.log| {
          assert t.log[i] == d[i - |s.log|];
        }
      }
    }
    forall id | 0 <= id < |t.received|
      ensures Deliveries(t.log, id) == if Holds(t.pending, id) then 0 else 1
    {
      DeliveriesAppend(s.log, d, id);
      DrainDeliveries(v, s.pending, b, id);
    }
  }

  /** An attempt that settles after `ready` only touches its own promise
      and, on success, `readyHandler`. */
  lemma LateSettlePreservesInv(s: State, k: nat, o: FactoryOutcome, b: AppBehaviour)
    requires Inv(s)
    requires k < |s.attempts| && s.attempts[k].Pending? && !s.ready.Pending?
    ensures Inv(AfterSettle(s, k, o, b))
  {
    var v := Validate(o);
    var t := AfterSettle(s, k, o, b);
    assert t == s.(attempts := s.attempts[k := v],
                   readyHandler := if v.Fulfilled? then Some(v.handler) else s.readyHandler);
    SettledStay(s.attempts, k, v);
    assert t.attempts[k] == v;
    assert s.ready in t.attempts;
    assert !AllPending(t.attempts) by {
      var j :| 0 <= j < |t.attempts| && t.attempts[j] == s.ready;
    }
  }

  lemma SettlePreservesInv(s: State, k: nat, o: FactoryOutcome, b: AppBehaviour)
    requires Inv(s)
    ensures Inv(AfterSettle(s, k, o, b))
  {
    if k < |s.attempts| && s.attempts[k].Pending? {
      if s.ready.Pending? {
        FirstSettlePreservesInv(s, k, o, b);
      } else {
        LateSettlePreservesInv(s, k, o, b);
      }
    }
  }

  lemma StepPreservesInv(s: State, i: Input, b: AppBehaviour)
    requires Inv(s)
    ensures Inv(Step(s, i, b))
  {
    match i
    case Request(a) => HandlePreservesInv(s, a, b);
    case CallInit => InitPreservesInv(s);
    case FactorySettles(k, o) => SettlePreservesInv(s, k, o, b);
  }

  lemma {:induction false} RunPreservesInv(s: State, inputs: seq<Input>, b: AppBehaviour)
    requires Inv(s)
    ensures Inv(Run(s, inputs, b))
    decreases |inputs|
  {
    if inputs != [] {
      StepPreservesInv(s, inputs[0], b);
      RunPreservesInv(Step(s, inputs[0], b), inputs[1..], b);
    }
  }

  // ---------------------------------------------------------------------
  // Whole runs

  /** For every sequence of events from construction on: each request is
      either still held (never delivered) or delivered exactly once, with its
      own arguments, only ever to a function the factory produced; once
      `ready` has settled no request is held any more; and a fulfilled
      `ready` implies `readyHandler` is set. */
  lemma EveryRequestDeliveredOnce(inputs: seq<Input>, b: AppBehaviour)
    ensures var t := Run(Initial(), inputs, b);
            && (forall id :: 0 <= id < |t.received| ==>
                  Deliveries(t.log, id) == if Holds(t.pending, id) then 0 else 1)
            && (!t.ready.Pending? ==> forall id :: 0 <= id < |t.received| ==> Deliveries(t.log, id) == 1)
            && EventsAgree(t.log, t.received)
            && DispatchesProduced(t.log, t.attempts)
            && (t.ready.Fulfilled? ==> t.readyHandler.Some?)
  {
    RunPreservesInv(Initial(), inputs, b);
    var t := Run(Initial(), inputs, b);
    if !t.ready.Pending? {
      forall id | 0 <= id < |t.received| ensures !Holds(t.pending, id) {
        assert t.pending == [];
      }
    }
  }

  /** `ready` settles at most once: whatever happens after it has settled,
      including more `init()` calls and their outcomes, it keeps its value. */
  lemma {:induction false} ReadySettlesOnce(s: State, inputs: seq<Input>, b: AppBehaviour)
    requires !s.ready.Pending?
    ensures Run(s, inputs, b).ready == s.ready
    decreases |inputs|
  {
    if inputs != [] {
      ReadySettlesOnce(Step(s, inputs[0], b), inputs[1..], b);
    }
  }

  /** Calls the proxy has made are never undone: each event extends the log
      and the record of received requests. */
  lemma {:induction false} LogOnlyGrows(s: State, inputs: seq<Input>, b: AppBehaviour)
    ensures s.log <= Run(s, inputs, b).log
    ensures s.received <= Run(s, inputs, b).received
    decreases |inputs|
  {
    if inputs != [] {
      var s' := Step(s, inputs[0], b);
      assert s.log <= s'.log && s.received <= s'.received;
      LogOnlyGrows(s', inputs[1..], b);
    }
  }

  /** The arguments of the requests among `inputs`, in order. */
  function Requests(inputs: seq<Input>): seq<Args>
    decreases |inputs|
  {
    if inputs == [] then []
    else (if inputs[0].Request? then [inputs[0].args] else []) + Requests(inputs[1..])
  }

  /** Every request received so far, held with its own arguments. */
  function AllHeld(received: seq<Args>): (r: seq<Held>)
    ensures |r| == |received|
    ensures forall j :: 0 <= j < |r| ==> r[j] == Held(j, received[j])
  {
    seq(|received|, j requires 0 <= j < |received| => Held(j, received[j]))
  }

  /** No factory has run, nothing has been delivered, and every request
      received is held with its own arguments. */
  ghost predicate Untouched(s: State) {
    && s.attempts == [] && s.ready == Pending && s.readyHandler == None
    && s.log == [] && s.pending == AllHeld(s.received)
  }

  lemma NoInitStep(s: State, i: Input, b: AppBehaviour)
    requires Untouched(s) && !i.CallInit?
    ensures Untouched(Step(s, i, b))
    ensures Step(s, i, b).received == s.received + if i.Request? then [i.args] else []
  {
    var t := Step(s, i, b);
    if i.Request? {
      assert t.received == s.received + [i.args];
      assert t.pending == AllHeld(t.received);
    } else {
      assert t == s;
    }
  }

  lemma {:induction false} NoInitRun(s: State, inputs: seq<Input>, b: AppBehaviour)
    requires forall i :: 0 <= i < |inputs| ==> !inputs[i].CallInit?
    requires Untouched(s)
    ensures Untouched(Run(s, inputs, b))
    ensures Run(s, inputs, b).received == s.received + Requests(inputs)
    decreases |inputs|
  {
    if inputs == [] {
      assert s.received + Requests(inputs) == s.received;
    } else {
      var s' := Step(s, inputs[0], b);
      NoInitStep(s, inputs[0], b);
      assert forall i :: 0 <= i < |inputs[1..]| ==> !inputs[1..][i].CallInit?;
      NoInitRun(s', inputs[1..], b);
      assert Run(s, inputs, b) == Run(s', inputs[1..], b);
      var r := if inputs[0].Request? then [inputs[0].args] else [];
      assert Requests(inputs) == r + Requests(inputs[1..]);
      assert s.received + Requests(inputs) == s.received + r + Requests(inputs[1..]);
    }
  }

  /** If `init()` is never called, the factory never runs, nothing is ever
      dispatched or forwarded, and every request stays held with its own
      arguments. */
  lemma NoInitNoFactory(inputs: seq<Input>, b: AppBehaviour)
    requires forall i :: 0 <= i < |inputs| ==> !inputs[i].CallInit?
    ensures var t := Run(Initial(), inputs, b);
            && t.attempts == [] && PhaseOf(t) == Uninitialized
            && t.log == [] && t.received == Requests(inputs)
            && t.pending == AllHeld(t.received)
  {
    NoInitRun(Initial(), inputs, b);
    assert [] + Requests(inputs) == Requests(inputs);
  }

  // ---------------------------------------------------------------------
  // One call of the handler

  /** Fast path: with `readyHandler` set, the handler is called at once with
      exactly the given arguments, nothing is held, and whatever it throws
      reaches the caller. */
  lemma HandleFastPath(s: State, a: Args, b: AppBehaviour)
    requires s.readyHandler.Some?
    ensures var t := AfterHandle(s, a, b);
            && t.log == s.log + [Dispatch(|s.received|, s.readyHandler.value, a)]
            && t.pending == s.pending && t.ready == s.ready && t.readyHandler == s.readyHandler
            && Escapes(s, a, b) == b(s.readyHandler.value, a)
  {
  }

  /** Held path: with `readyHandler` unset and `ready` pending, the request
      is sent nowhere yet; its arguments are kept for it alone. */
  lemma HandleHeldPath(s: State, a: Args, b: AppBehaviour)
    requires s.readyHandler.None? && s.ready.Pending?
    ensures var t := AfterHandle(s, a, b);
            && t.log == s.log && t.pending == s.pending + [Held(|s.received|, a)]
            && Escapes(s, a, b) == None
  {
  }

  /** After a failed initialisation (and while no later `init()` has
      produced a function), each request's `next` receives the reason at
      once and no handler is called. */
  lemma HandleAfterFailure(s: State, a: Args, b: AppBehaviour)
    requires Inv(s)
    requires s.readyHandler.None? && !s.ready.Pending?
    ensures s.ready.Rejected?
    ensures var t := AfterHandle(s, a, b);
            && t.log == s.log + [Forward(|s.received|, a, s.ready.reason)]
            && t.pending == [] && Escapes(s, a, b) == None
  {
  }

  /** The handler's behaviour per phase of the state machine. */
  lemma PhaseRouting(s: State, a: Args, b: AppBehaviour)
    requires Inv(s)
    ensures var t := AfterHandle(s, a, b);
            match PhaseOf(s)
            case Uninitialized => t.log == s.log && t.pending == s.pending + [Held(|s.received|, a)]
            case Initializing => t.log == s.log && t.pending == s.pending + [Held(|s.received|, a)]
            case Ready(_) =>
              s.readyHandler.Some? && t.log == s.log + [Dispatch(|s.received|, s.readyHandler.value, a)]
            case Failed(r) =>
              if s.readyHandler.None? then t.log == s.log + [Forward(|s.received|, a, r)]
              else t.log == s.log + [Dispatch(|s.received|, s.readyHandler.value, a)]
  {
    if s.ready.Pending? {
      NoHandlerWhilePending(s);
    }
  }

  // ---------------------------------------------------------------------
  // The factory settles

  /** The first `init()` to produce a function `f` sets `readyHandler` to
      `f`, fulfils its own promise and `ready` with that same `f`, and
      dispatches every held request exactly once to `f` with its own
      arguments; a throw of `f` there goes to that request's `next`; nothing
      else is called: no failure is forwarded and a `next` receives only what
      `f` threw for that request's arguments. */
  lemma SettleFulfils(s: State, k: nat, f: HandlerId, b: AppBehaviour)
    requires Inv(s)
    requires k < |s.attempts| && s.ready.Pending?
    ensures var t := AfterSettle(s, k, Returned(Value(f, true)), b);
            && t.readyHandler == Some(f) && t.ready == Fulfilled(f) && t.attempts[k] == Fulfilled(f)
            && t.pending == []
            && (forall j :: 0 <= j < |s.pending| ==>
                  var h := s.pending[j];
                  && Dispatch(h.request, f, s.received[h.request]) in t.log
                  && Deliveries(t.log, h.request) == 1
                  && (b(f, h.args).Some? ==> Rethrow(h.request, h.args, b(f, h.args).value) in t.log))
            && (forall i :: |s.log| <= i < |t.log| ==>
                  || (t.log[i].Dispatch? && t.log[i].handler == f)
                  || (t.log[i].Rethrow? && b(f, t.log[i].args) == Some(t.log[i].error)))
  {
    var o := Returned(Value(f, true));
    var t := AfterSettle(s, k, o, b);
    assert s.attempts[k].Pending?;
    var d := Drain(Fulfilled(f), s.pending, b);
    assert t.log == s.log + d;
    DrainFulfilled(f, s.pending, b);
    SettlePreservesInv(s, k, o, b);
    forall j | 0 <= j < |s.pending|
      ensures Deliveries(t.log, s.pending[j].request) == 1
    {
      assert t.pending == [];
    }
    forall i | |s.log| <= i < |t.log|
      ensures || (t.log[i].Dispatch? && t.log[i].handler == f)
              || (t.log[i].Rethrow? && b(f, t.log[i].args) == Some(t.log[i].error))
    {
      assert t.log[i] == d[i - |s.log|];
    }
  }

  /** The first `init()` to fail (the factory threw or rejected, or produced
      a non-function) rejects `ready` with that reason; `readyHandler` stays
      unset; every held request's `next` receives the reason exactly once,
      and that is all that happens: no handler is called. */
  lemma SettleRejects(s: State, k: nat, o: FactoryOutcome, b: AppBehaviour)
    requires Inv(s)
    requires k < |s.attempts| && s.ready.Pending?
    requires Validate(o).Rejected?
    ensures var t := AfterSettle(s, k, o, b);
            && t.ready == Validate(o) && t.attempts[k] == Validate(o)
            && t.readyHandler.None? && t.pending == []
            && (forall j :: 0 <= j < |s.pending| ==>
                  var h := s.pending[j];
                  && Forward(h.request, s.received[h.request], Validate(o).reason) in t.log
                  && Deliveries(t.log, h.request) == 1)
            && (forall i :: |s.log| <= i < |t.log| ==>
                  t.log[i].Forward? && t.log[i].reason == Validate(o).reason)
  {
    var r := Validate(o).reason;
    var t := AfterSettle(s, k, o, b);
    assert s.attempts[k].Pending?;
    NoHandlerWhilePending(s);
    var d := Drain(Rejected(r), s.pending, b);
    assert t.log == s.log + d;
    DrainRejected(r, s.pending, b);
    SettlePreservesInv(s, k, o, b);
    forall j | 0 <= j < |s.pending|
      ensures Deliveries(t.log, s.pending[j].request) == 1
    {
      assert t.pending == [];
    }
    forall i | |s.log| <= i < |t.log| ensures t.log[i].Forward? && t.log[i].reason == r {
      assert t.log[i] == d[i - |s.log|];
    }
  }

  /** A factory result that is not a function rejects that `init()`'s
      promise with a validation error mentioning `getRequestHandler`, also
      rejects `ready` if it was pending, leaves `readyHandler` as it was, and
      sends no request to a handler. */
  lemma SettleNotAFunction(s: State, k: nat, x: HandlerId, b: AppBehaviour)
    requires k < |s.attempts| && s.attempts[k].Pending?
    ensures var t := AfterSettle(s, k, Returned(Value(x, false)), b);
            && t.attempts[k].Rejected? && t.attempts[k].reason.InvalidHandler?
            && Mentions(t.attempts[k].reason.message, "getRequestHandler")
            && t.readyHandler == s.readyHandler
            && (s.ready.Pending? ==> t.ready == t.attempts[k])
            && (forall i :: |s.log| <= i < |t.log| ==> !t.log[i].Dispatch?)
  {
    var t := AfterSettle(s, k, Returned(Value(x, false)), b);
    var v := Validate(Returned(Value(x, false)));
    if s.ready.Pending? {
      DrainRejected(v.reason, s.pending, b);
      forall i | |s.log| <= i < |t.log| ensures !t.log[i].Dispatch? {
        assert t.log[i] == Drain(v, s.pending, b)[i - |s.log|];
      }
    }
  }

  /** An `init()` that settles after `ready` has settled cannot change
      `ready` or deliver anything, though a function it produces replaces
      `readyHandler` (index.js:21). */
  lemma LateSettle(s: State, k: nat, o: FactoryOutcome, b: AppBehaviour)
    requires Inv(s)
    requires !s.ready.Pending?
    ensures var t := AfterSettle(s, k, o, b);
            && t.ready == s.ready && t.log == s.log && t.pending == [] && t.received == s.received
            && t.readyHandler ==
                 if k < |s.attempts| && s.attempts[k].Pending? && o.Returned? && o.value.isFunction
                 then Some(o.value.id) else s.readyHandler
  {
  }
}
