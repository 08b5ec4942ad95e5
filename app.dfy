/** The admission gateway: booking envelopes arrive on a topic, `create`
    requests go through a circuit breaker guarding the request limiter, and
    the dispatcher forwards to booking creation every request the breaker did
    not refuse itself, including the one whose limiter refusal trips it.
    Breaker transitions are broadcast as a fault flag on a fixed topic.

    The two libraries are collaborators whose rules are parameters: the
    limiter answers by `RateLimiter.answer`, and the breaker moves between
    states by `rule`. The breaker refuses every call while open, without
    calling the limiter; it counts every rejection of a call, or a timeout,
    as a failure; and it emits an event exactly when its state changes,
    named after the new state. */
module App {
  import opened Values
  import RequestLimiter
  import BookingsController

  const BOOKING_TOPIC: string := "/team13/booking"
  const CIRCUIT_FAULT_TOPIC: string := "/team13/circuitFault"

  /** An outbound publication. */
  datatype Message = Message(topic: string, payload: string)

  /** A parsed inbound payload `{method, data}`. */
  datatype Envelope = Envelope(methodName: Value, data: Data)

  datatype BreakerState = Closed | Open | HalfOpen

  datatype BreakerEvent = OpenEvent | HalfOpenEvent | CloseEvent

  /** What moves the breaker: the settling of a call it let through, or its
      reset timer running out. */
  datatype Signal = CallSucceeded | CallFailed | ResetTimeoutElapsed

  // ---------------------------------------------------------------------
  // Routing

  /** The `message` handler's decision: which data, if any, is dispatched. */
  function Route(topic: string, envelope: Envelope): (r: Option<Data>)
    ensures r.Some? <==> topic == BOOKING_TOPIC && envelope.methodName == Text("create")
    ensures r.Some? ==> r.value == envelope.data
  {
    if topic != BOOKING_TOPIC then None
    else
      match envelope.methodName
      case Text(m) => if m == "create" then Some(envelope.data) else None
      case _ => None
  }

  // ---------------------------------------------------------------------
  // Fault broadcaster

  /** The publication of the `open`, `halfOpen` and `close` handlers. */
  function FaultMessage(e: BreakerEvent): (m: Message)
    ensures m.topic == CIRCUIT_FAULT_TOPIC
    ensures m.payload == "true" <==> e == OpenEvent
    ensures m.payload == "false" <==> e != OpenEvent
  {
    match e
    case OpenEvent => Message(CIRCUIT_FAULT_TOPIC, "true")
    case HalfOpenEvent => Message(CIRCUIT_FAULT_TOPIC, "false")
    case CloseEvent => Message(CIRCUIT_FAULT_TOPIC, "false")
  }

  /** The event the breaker emits on entering a state. */
  function EventOf(s: BreakerState): BreakerEvent {
    match s
    case Open => OpenEvent
    case HalfOpen => HalfOpenEvent
    case Closed => CloseEvent
  }

  /** The publications that follow a move of the breaker from `before` to
      `after`: one when the state changes, none otherwise. */
  function Broadcast(before: BreakerState, after: BreakerState): (ms: seq<Message>)
    ensures |ms| <= 1
    ensures before == after <==> ms == []
    ensures ms != [] ==> ms[0].topic == CIRCUIT_FAULT_TOPIC && (ms[0].payload == "true" <==> after == Open)
  {
    if before == after then [] else [FaultMessage(EventOf(after))]
  }

  // ---------------------------------------------------------------------
  // Breaker and dispatcher

  /** How `breaker.fire()` settles, given the breaker's state, how the
      limiter would answer `consume(1)`, and whether the call runs past the
      breaker's timeout. An open breaker refuses with an `Error`; a timeout
      is an `Error`; otherwise the promise of `functionThatCouldFail`, which
      rethrows what `bookingRequestLimiter` rejected with, settles it. */
  function FireOutcome(state: BreakerState, answer: RequestLimiter.ConsumeOutcome, timedOut: bool): (o: Settlement)
    ensures state == Open ==> o.Rejected? && o.reason.IsError()
    ensures state != Open && timedOut ==> o.Rejected? && o.reason.IsError()
    ensures state != Open && !timedOut ==> (o.Fulfilled? <==> answer.Consumed?)
    ensures o.Rejected? && !o.reason.IsError() ==> o.reason == NonError(answer.res)
  {
    if state == Open then Rejected(ErrorInstance(BreakerIsOpen))
    else if timedOut then Rejected(ErrorInstance(TimedOut))
    else RequestLimiter.Settle(answer)
  }

  /** The state the breaker is in once the call settles. */
  function NextState(state: BreakerState, o: Settlement, rule: (BreakerState, Signal) -> BreakerState): BreakerState {
    if state == Open then state
    else rule(state, if o.Fulfilled? then CallSucceeded else CallFailed)
  }

  /** `dispatchBookingCreation`'s reading of the fire outcome: forward when
      it resolved, and when it was rejected with something that is not an
      `Error`, the limiter's own refusal. */
  function Forwards(o: Settlement): bool {
    match o
    case Fulfilled => true
    case Rejected(err) => !err.IsError()
  }

  /** Whether a request is forwarded: exactly when the breaker was not open
      and the call did not time out. The limiter's answer never decides it;
      a refusal only reaches the breaker as a failure. */
  function Admitted(state: BreakerState, answer: RequestLimiter.ConsumeOutcome, timedOut: bool): (forward: bool)
    ensures forward <==> state != Open && !timedOut
  {
    Forwards(FireOutcome(state, answer, timedOut))
  }

  // ---------------------------------------------------------------------
  // The gateway's state, as a value

  /** Everything the gateway's reactions change: the breaker state, the
      limiter's calls, the publications, the data handed to `createBooking`
      (in order), the stored bookings, and the number of `fire()` calls. */
  datatype World = World(
    breaker: BreakerState,
    limiterCalls: seq<nat>,
    published: seq<Message>,
    requested: seq<Data>,
    bookings: seq<BookingsController.Booking>,
    fires: nat)

  /** The collaborators' fixed rules. */
  datatype Env = Env(
    rule: (BreakerState, Signal) -> BreakerState,
    answer: (seq<nat>, nat) -> RequestLimiter.ConsumeOutcome,
    clinics: map<real, BookingsController.Clinic>)

  /** `breaker.fire()`: one more fire, a limiter call unless the breaker is
      open, the move of the breaker and its broadcast. */
  function Fired(w: World, env: Env, timedOut: bool): World {
    var o := FireOutcome(w.breaker, env.answer(w.limiterCalls, 1), timedOut);
    var next := NextState(w.breaker, o, env.rule);
    w.(breaker := next,
       limiterCalls := if w.breaker == Open then w.limiterCalls else w.limiterCalls + [1],
       published := w.published + Broadcast(w.breaker, next),
       fires := w.fires + 1)
  }

  /** `createBooking(data)`, called once; its outcome is only logged. */
  function Forwarded(w: World, env: Env, data: Data): World
    requires BookingsController.TimesInRange(data)
  {
    var r := BookingsController.Create(w.bookings, env.clinics, data);
    w.(requested := w.requested + [data],
       bookings := if r.Ok? then w.bookings + [r.value] else w.bookings)
  }

  /** `dispatchBookingCreation(data)` */
  function Dispatch(w: World, env: Env, data: Data, timedOut: bool): (r: World)
    requires BookingsController.TimesInRange(data)
    ensures r.fires == w.fires + 1
    ensures r.limiterCalls == w.limiterCalls + (if w.breaker == Open then [] else [1])
    ensures r.requested == w.requested + (if w.breaker != Open && !timedOut then [data] else [])
    ensures w.breaker == Open ==> r == w.(fires := w.fires + 1)
    ensures r.published == w.published + Broadcast(w.breaker, r.breaker)
    ensures r.breaker == Open && w.breaker != Open ==> r.published == w.published + [Message(CIRCUIT_FAULT_TOPIC, "true")]
    ensures r.bookings == w.bookings ||
            (data.Object? && BookingsController.PassesSchema(data) &&
             r.bookings == w.bookings + [BookingsController.BookingOf(data)])
  {
    var o := FireOutcome(w.breaker, env.answer(w.limiterCalls, 1), timedOut);
    var f := Fired(w, env, timedOut);
    if Forwards(o) then Forwarded(f, env, data) else f
  }

  /** The breaker's reset timer runs out. */
  function ResetTimeout(w: World, env: Env): (r: World)
    ensures r.published == w.published + Broadcast(w.breaker, r.breaker)
    ensures r == w.(breaker := r.breaker, published := r.published)
  {
    if w.breaker == Open then
      var next := env.rule(Open, ResetTimeoutElapsed);
      w.(breaker := next, published := w.published + Broadcast(Open, next))
    else w
  }

  /** What reaches the gateway from outside. */
  datatype Input =
    | Deliver(topic: string, envelope: Envelope, timedOut: bool)
    | ResetTimerFires

  /** The data of a message that gets dispatched names times of day. */
  predicate InputOk(input: Input) {
    input.Deliver? && Route(input.topic, input.envelope).Some? ==>
      BookingsController.TimesInRange(input.envelope.data)
  }

  /** The `message` handler and the reset timer. */
  function Step(w: World, env: Env, input: Input): World
    requires InputOk(input)
  {
    match input
    case ResetTimerFires => ResetTimeout(w, env)
    case Deliver(topic, envelope, timedOut) =>
      match Route(topic, envelope)
      case None => w
      case Some(data) => Dispatch(w, env, data, timedOut)
  }

  function Run(w: World, env: Env, inputs: seq<Input>): World
    requires forall i :: 0 <= i < |inputs| ==> InputOk(inputs[i])
    decreases |inputs|
  {
    if inputs == [] then w else Run(Step(w, env, inputs[0]), env, inputs[1..])
  }

  /** How many inputs are `create` messages on the booking topic. */
  function CreateCount(inputs: seq<Input>): nat {
    if inputs == [] then 0
    else (if inputs[0].Deliver? && Route(inputs[0].topic, inputs[0].envelope).Some? then 1 else 0)
         + CreateCount(inputs[1..])
  }

  // ---------------------------------------------------------------------
  // What the reactions keep

  /** The last fault flag published, `false` before any. */
  function FaultFlag(published: seq<Message>): bool {
    published != [] && published[|published| - 1].payload == "true"
  }

  /** Subscribers' view of the breaker: every publication is a fault flag,
      the last one says `true` exactly when the breaker is open, and `true`
      is never published twice in a row. */
  predicate BroadcastInvariant(w: World) {
    (forall i :: 0 <= i < |w.published| ==>
       w.published[i].topic == CIRCUIT_FAULT_TOPIC &&
       (w.published[i].payload == "true" || w.published[i].payload == "false")) &&
    (FaultFlag(w.published) <==> w.breaker == Open) &&
    (forall i :: 0 < i < |w.published| && w.published[i].payload == "true" ==>
       w.published[i - 1].payload == "false")
  }

  predicate WorldInvariant(w: World, env: Env) {
    BroadcastInvariant(w) && BookingsController.StoreInvariant(env.clinics, w.bookings)
  }

  /** A move of the breaker, with its broadcast, keeps the subscribers' view. */
  lemma MoveKeepsBroadcastInvariant(w: World, next: BreakerState)
    requires BroadcastInvariant(w)
    ensures BroadcastInvariant(w.(breaker := next, published := w.published + Broadcast(w.breaker, next)))
  {
  }

  /** Every step keeps the broadcast and store invariants. */
  lemma StepKeepsInvariant(w: World, env: Env, input: Input)
    requires InputOk(input) && WorldInvariant(w, env)
    ensures WorldInvariant(Step(w, env, input), env)
  {
  }

  /** Over any run of inputs the invariants hold throughout. */
  lemma {:induction false} RunKeepsInvariant(w: World, env: Env, inputs: seq<Input>)
    requires forall i :: 0 <= i < |inputs| ==> InputOk(inputs[i])
    requires WorldInvariant(w, env)
    ensures WorldInvariant(Run(w, env, inputs), env)
    decreases |inputs|
  {
    if inputs != [] {
      StepKeepsInvariant(w, env, inputs[0]);
      RunKeepsInvariant(Step(w, env, inputs[0]), env, inputs[1..]);
    }
  }

  /** Over any run, `fire()` is called once per `create` message, and
      neither `consume` nor `createBooking` more often than that. */
  lemma {:induction false} RunCallsAtMostOncePerCreate(w: World, env: Env, inputs: seq<Input>)
    requires forall i :: 0 <= i < |inputs| ==> InputOk(inputs[i])
    ensures Run(w, env, inputs).fires == w.fires + CreateCount(inputs)
    ensures |Run(w, env, inputs).limiterCalls| <= |w.limiterCalls| + CreateCount(inputs)
    ensures |Run(w, env, inputs).requested| <= |w.requested| + CreateCount(inputs)
    decreases |inputs|
  {
    if inputs != [] {
      RunCallsAtMostOncePerCreate(Step(w, env, inputs[0]), env, inputs[1..]);
    }
  }

  /** The request whose limiter refusal trips the breaker is forwarded, and
      the breaker's opening is broadcast once, as `true`. */
  lemma TrippingRequestForwarded(w: World, env: Env, data: Data)
    requires BookingsController.TimesInRange(data)
    requires w.breaker != Open
    requires env.answer(w.limiterCalls, 1).Refused?
    requires env.rule(w.breaker, CallFailed) == Open
    ensures Dispatch(w, env, data, false).breaker == Open
    ensures Dispatch(w, env, data, false).requested == w.requested + [data]
    ensures Dispatch(w, env, data, false).published == w.published + [Message(CIRCUIT_FAULT_TOPIC, "true")]
  {
  }

  // ---------------------------------------------------------------------
  // The gateway

  /** The module-level singletons: the breaker's state, the injected
      limiter, the booking store, and the publish log of the MQTT client. */
  class Gateway {
    const limiter: RequestLimiter.RateLimiter
    const store: BookingsController.BookingStore
    const rule: (BreakerState, Signal) -> BreakerState
    var breaker: BreakerState
    var published: seq<Message>
    var requested: seq<Data>
    var fires: nat

    ghost function Collaborators(): Env {
      Env(rule, limiter.answer, store.clinics)
    }

    ghost function Snapshot(): World
      reads this, limiter, store
    {
      World(breaker, limiter.calls, published, requested, store.bookings, fires)
    }

    ghost predicate Valid()
      reads this, limiter, store
    {
      WorldInvariant(Snapshot(), Collaborators())
    }

    constructor (limiter: RequestLimiter.RateLimiter, store: BookingsController.BookingStore,
                 rule: (BreakerState, Signal) -> BreakerState)
      requires store.Valid()
      ensures Valid()
      ensures this.limiter == limiter && this.store == store && this.rule == rule
      ensures breaker == Closed && published == [] && requested == [] && fires == 0
    {
      this.limiter := limiter;
      this.store := store;
      this.rule := rule;
      breaker := Closed;
      published := [];
      requested := [];
      fires := 0;
    }

    /** `client.publish(topic, payload)` */
    method Publish(m: Message)
      modifies this`published
      ensures published == old(published) + [m]
    {
      published := published + [m];
    }

    /** The `open`, `halfOpen` and `close` handlers: exactly one publication. */
    method OnEvent(e: BreakerEvent)
      modifies this`published
      ensures published == old(published) + [FaultMessage(e)]
    {
      match e
      case OpenEvent => Publish(Message(CIRCUIT_FAULT_TOPIC, "true"));
      case HalfOpenEvent => Publish(Message(CIRCUIT_FAULT_TOPIC, "false"));
      case CloseEvent => Publish(Message(CIRCUIT_FAULT_TOPIC, "false"));
    }

    /** The breaker moves to `next`, emitting an event if that is a change. */
    method MoveTo(next: BreakerState)
      modifies this`breaker, this`published
      ensures breaker == next
      ensures published == old(published) + Broadcast(old(breaker), next)
    {
      if next != breaker {
        breaker := next;
        OnEvent(EventOf(next));
      }
    }

    /** `functionThatCouldFail`: rethrows whatever the request limiter
        rejected with. */
    method FunctionThatCouldFail() returns (s: Settlement)
      modifies limiter
      ensures limiter.calls == old(limiter.calls) + [1]
      ensures s == RequestLimiter.Settle(limiter.answer(old(limiter.calls), 1))
    {
      s := RequestLimiter.BookingRequestLimiter(limiter);
      match s
      case Fulfilled =>
      case Rejected(err) => s := Rejected(err);
    }

    /** `breaker.fire()` */
    method Fire(timedOut: bool) returns (o: Settlement)
      modifies this, limiter
      ensures o == FireOutcome(old(breaker), limiter.answer(old(limiter.calls), 1), timedOut)
      ensures Snapshot() == Fired(old(Snapshot()), Collaborators(), timedOut)
    {
      fires := fires + 1;
      if breaker == Open {
        o := Rejected(ErrorInstance(BreakerIsOpen));
      } else {
        var s := FunctionThatCouldFail();
        o := if timedOut then Rejected(ErrorInstance(TimedOut)) else s;
        MoveTo(rule(breaker, if o.Fulfilled? then CallSucceeded else CallFailed));
      }
    }

    /** An accepted request: `createBooking(data)`, whose outcome is only
        logged. */
    method Forward(data: Data)
      requires store.Valid() && BookingsController.TimesInRange(data)
      modifies this`requested, store
      ensures store.Valid()
      ensures requested == old(requested) + [data]
      ensures store.bookings == Forwarded(old(Snapshot()), Collaborators(), data).bookings
    {
      requested := requested + [data];
      var _ := store.CreateBooking(data);
    }

    /** `dispatchBookingCreation(data)` */
    method DispatchBookingCreation(data: Data, timedOut: bool)
      requires Valid() && BookingsController.TimesInRange(data)
      modifies this, limiter, store
      ensures Valid()
      ensures Snapshot() == Dispatch(old(Snapshot()), Collaborators(), data, timedOut)
    {
      ghost var w := Snapshot();
      var o := Fire(timedOut);
      match o {
        case Fulfilled =>
          Forward(data);
        case Rejected(err) =>
          if !err.IsError() {
            Forward(data);
          }
      }
      StepKeepsInvariant(w, Collaborators(), Deliver(BOOKING_TOPIC, Envelope(Text("create"), data), timedOut));
    }

    /** The `message` handler. */
    method OnMessage(topic: string, envelope: Envelope, timedOut: bool)
      requires Valid() && InputOk(Deliver(topic, envelope, timedOut))
      modifies this, limiter, store
      ensures Valid()
      ensures Snapshot() == Step(old(Snapshot()), Collaborators(), Deliver(topic, envelope, timedOut))
    {
      if topic != BOOKING_TOPIC {
        return;
      }
      match envelope.methodName
      case Text(m) =>
        if m == "create" {
          DispatchBookingCreation(envelope.data, timedOut);
        }
      case _ =>
    }

    /** The breaker's reset timer runs out. */
    method OnResetTimeout()
      requires Valid()
      modifies this
      ensures Valid()
      ensures Snapshot() == ResetTimeout(old(Snapshot()), Collaborators())
    {
      if breaker == Open {
        ghost var w := Snapshot();
        MoveTo(rule(Open, ResetTimeoutElapsed));
        MoveKeepsBroadcastInvariant(w, breaker);
      }
    }
  }
}
