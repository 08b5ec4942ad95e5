# DR-booking admission gateway and booking validator, in Dafny

This project models two parts of the booking service.

1. **The admission gateway** (`src/app.js`, `src/RequestLimiters/RequestLimiter.js`).
   MQTT envelopes arrive on a topic. A `create` request on `/team13/booking` fires a circuit breaker. The breaker guards a request limiter that spends one point per request.
   The dispatcher forwards the request to booking creation when the breaker resolves. It also forwards when the breaker rejects with something that is not an `Error`: that is the limiter's own refusal, so the request that trips the breaker is still accepted.
   Breaker transitions are published as a fault flag (`"true"` on `open`, `"false"` on `halfOpen` and `close`) on `/team13/circuitFault`.
2. **The booking-creation validator** (`src/controllers/bookingsController.js`).
   `createBooking` runs an ordered chain of guard clauses: schema, exact-slot duplicate, code duplicate, clinic existence, then the opening-hours and slot-shape rules of `verifyBookingData`. Only if all pass is one booking saved.

Files:
- `values.dfy` (module `Values`): optional values and results, the parsed JSON of a booking envelope, and how a promise settles (`Fulfilled`, or `Rejected` with an `Error` instance or a plain value).
- `request_limiter.dfy` (module `RequestLimiter`): a stand-in for the limiter library (class `RateLimiter`, which records every `consume` call) and `bookingRequestLimiter`.
- `bookings_controller.dfy` (module `BookingsController`): the validator as pure functions, the store invariant and the no-overlap lemmas, and the class `BookingStore` whose `CreateBooking` saves on success.
- `app.dfy` (module `App`): the router, the fault broadcaster, the breaker outcome and the dispatcher's decision as functions; the gateway's state as a value `World` with one step function per reaction; and the class `Gateway`, whose handler methods are proved against those step functions.

The two libraries are collaborators, not part of the model. Their behaviour enters as parameters:
- `RateLimiter.answer` gives the limiter's answer (point consumed, or refused with a plain result object) as a function of the earlier calls.
- The breaker's transition rule `rule(state, signal)` is a parameter.
- The model fixes only what the dispatcher depends on. An open breaker refuses with an `Error` and does not call the limiter. A timed-out call is refused with an `Error`. Any rejection counts as a failure signal. An event is emitted exactly when the state changes, named after the new state.

Times are minutes since midnight of the booking date. Clinics are a map from id to a function giving the opening hours for a date; either end may be missing.

Facts proved beyond the per-call contracts:
- A request is forwarded exactly when the breaker was not open and the call did not time out (`App.Admitted`). The limiter's answer never decides it by itself.
- Over any run of inputs, the last published fault flag says `"true"` exactly when the breaker is open, and `"true"` is never published twice in a row.
- The store only ever holds admissible bookings with distinct slots and distinct codes.
- No two stored bookings at the same clinic on the same date overlap in time. This follows from the code but is not claimed by it: every accepted slot starts on a half hour and lasts thirty minutes, and identical slots are refused.

## Model

| member | source | states |
|---|---|---|
| `RequestLimiter.Settle` | src/RequestLimiters/RequestLimiter.js:3-10 | the wrapper resolves exactly when `consume` resolved; a refusal is rethrown as the identical value, which is not an `Error` |
| `RequestLimiter.BookingRequestLimiter` | src/RequestLimiters/RequestLimiter.js:2-11 | exactly one `consume(1)` on the injected limiter, which is the only state changed; settles as `Settle` of the limiter's answer |
| `App.Gateway.FunctionThatCouldFail` | src/app.js:64-70 | one limiter call of cost 1; settles exactly as `bookingRequestLimiter` did, rejection unchanged |
| `App.Route` | src/app.js:98-112 | data is dispatched exactly when the topic is `/team13/booking` and the method is the string `"create"`, and it is the envelope's own data |
| `App.FaultMessage` | src/app.js:81-96 | every handler publishes on `/team13/circuitFault`; payload `"true"` exactly for `open`, `"false"` exactly for `halfOpen` and `close` |
| `App.Broadcast` | src/app.js:81-96 | a breaker move publishes at most one message, none exactly when the state did not change, and `"true"` exactly when the new state is open |
| `App.Gateway.OnEvent` | src/app.js:81-96 | a breaker event appends exactly one publication, its fault message, and changes nothing else |
| `App.FireOutcome` | src/app.js:64-78 | an open breaker or a timeout rejects with an `Error`; otherwise `fire()` resolves exactly when the limiter consumed, and a non-`Error` rejection is the limiter's result |
| `App.Gateway.Fire` | src/app.js:123 | the fire outcome is `FireOutcome` of the prior state; the new gateway state is `Fired` of the old one |
| `App.Admitted` | src/app.js:121-140 | a request is forwarded exactly when the breaker was not open and the call did not time out, whatever the limiter answered |
| `App.Dispatch` | src/app.js:121-140 | one `fire()`; one limiter call unless open; `createBooking(data)` called once if forwarded, never otherwise; an open breaker changes nothing but the fire count; an opening publishes exactly `"true"`; the store grows by at most the data |
| `App.Gateway.Forward` | src/app.js:125-128 | an accepted request calls `createBooking(data)` exactly once; its outcome changes only the store |
| `App.Gateway.DispatchBookingCreation` | src/app.js:121-140 | the gateway's new state is `Dispatch` of the old one, and the invariants are kept |
| `App.TrippingRequestForwarded` | src/app.js:131-137 | the request whose limiter refusal opens the breaker is forwarded, and the opening is published once as `"true"` |
| `App.ResetTimeout` | src/app.js:87-90 | the reset timer changes only the breaker state and publishes per `Broadcast` |
| `App.Gateway.OnResetTimeout` | src/app.js:87-90 | the gateway's new state is `ResetTimeout` of the old one, and the invariants are kept |
| `App.Gateway.OnMessage` | src/app.js:98-112 | other topics and other methods change nothing; a `create` message runs the dispatcher |
| `App.MoveKeepsBroadcastInvariant` | src/app.js:81-96 | a breaker move with its broadcast keeps the fault flag equal to "breaker open" and never repeats `"true"` |
| `App.StepKeepsInvariant` | src/app.js:81-112 | every reaction keeps the broadcast invariant and the store invariant |
| `App.RunKeepsInvariant` | src/app.js:81-112 | over any run of inputs, the last published flag is `"true"` exactly when the breaker is open, and the store stays valid |
| `App.RunCallsAtMostOncePerCreate` | src/app.js:98-140 | over any run, `fire()` is called once per `create` message, and `consume` and `createBooking` at most that often |
| `BookingsController.MinutesOf` | src/controllers/bookingsController.js:61-62 | a clock time is under 24 hours, and its minute-of-hour and hour are the string's `mm` and `HH` |
| `BookingsController.MinutesOfInjective` | src/controllers/bookingsController.js:61-62 | distinct clock-time strings stand for distinct times |
| `BookingsController.VerifyBookingData` | src/controllers/bookingsController.js:54-89 | resolves exactly when both opening-hour ends are known, the slot lies within them, starts on a half hour and ends exactly thirty minutes later |
| `BookingsController.Create` | src/controllers/bookingsController.js:17-52 | accepts exactly the schema-valid, admissible data with a fresh slot and a fresh code, and the booking is the data; otherwise the first failing check in source order names the rejection |
| `BookingsController.BookingStore.CreateBooking` | src/controllers/bookingsController.js:17-52 | a rejection leaves the store unchanged; success appends exactly the accepted booking; the store invariant is kept |
| `BookingsController.DistinctSlotsDisjoint` | src/controllers/bookingsController.js:76-88 | two admissible bookings in different slots never overlap in time |
| `BookingsController.StoredBookingsDisjoint` | src/controllers/bookingsController.js:24-51 | no two bookings in a valid store overlap in time |
| `BookingsController.CreateKeepsInvariant` | src/controllers/bookingsController.js:24-51 | a successful creation keeps every booking admissible with distinct slots and codes, and the new booking overlaps no stored one |

## Left out

- The Express server, the `/api` route and the database connection: I/O plumbing.
- The MQTT connection, subscription and transport. `publish` appends a (topic, payload) pair to a log.
- `JSON.parse` in `parsePayload`: envelopes arrive already parsed as `{method, data}`. Malformed JSON is not modelled.
- The limiter library's bucket, window and clock (2 points per 5 seconds). The limiter's answer is a fixed function of its earlier calls, so no token-bucket law is stated.
- The breaker library's failure statistics, its `errorThresholdPercentage` (a float), and its 5000 ms timeout and 10000 ms reset timers. The transition rule is a parameter, and whether a call times out is an input.
- Concurrency: overlapping dispatches, a half-open breaker refusing calls while its trial is pending, and the race between the duplicate checks and `save`. Every reaction runs to completion before the next.
- Joi internals: type coercion (for example a numeric string as `clinicId`) and the unknown-key policy. A number is a `real`. `Joi.string()` refuses the empty string, so `code` must be non-empty.
- An absent `data` passes the optional object schema. Reading `data.clinicId` then throws, which is modelled as the rejection `ReadOfUndefined`.
- The time helper `timeStringToDate` and `clinic.getOpeningHours` are not part of this model. An `HH:mm` string is read as `HH*60 + mm`. Strings that match the pattern but are not a time of day (such as `"99:99"`) are excluded by the precondition `TimesInRange`.
- Logging and the exact error texts.
