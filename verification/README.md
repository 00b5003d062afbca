# Completion helper for CloudFormation custom resources — Dafny model

`helper.js` wraps a Lambda-backed custom-resource function. Each invocation
arms a deadline timer for the remaining execution time less 1000 ms, and it runs the
wrapped function at the same time. Whichever finishes first reports to
CloudFormation. The report is one HTTPS PUT to the event's `ResponseURL`. Its
JSON body holds `StackId`, `RequestId`, `LogicalResourceId`, `Data`, `Reason`
and `Status`. A one-shot `finished` flag makes sure the later of the two
completions sends nothing. The Lambda completion callback is then called with
no error when the PUT gets a status below 300, and with the error otherwise.
A `ResponseURL` that is not a string makes `send` throw before any PUT. On
the function path the callback then gets that `TypeError`. On the timer path
the error escapes the timer callback, and the callback is never called.

The model has four modules:

- `JsValue` (`js_value.dfy`) covers JavaScript values, truthiness, `||`, property
  reads and `Object.assign` on plain objects, which are modelled as maps.
- `Reporter` (`reporter.dfy`) covers `send`. It builds the envelope and
  either issues the PUT or throws for a non-string URL. The network's answer
  is an abstract `SendOutcome` that the module classifies.
- `Coordinator` (`coordinator.dfy`) covers `handler`: the delay, the timeout
  result, outcome normalisation and callback dispatch. The race is a pure
  `Step` function over an immutable `State`. `Run` folds `Step` over an
  arbitrary sequence of abstract events: `TimerFired`, `WorkSettled` and
  `DeliverySettled(outcome)`. `Step` is total. An event the runtime would not
  deliver is a no-op, for example the timer after `clearTimeout` or a delivery
  with no PUT in flight. So the theorems hold for every ordering and not only
  for the orderings the event loop can produce.
- `Scenarios` (`scenarios.dfy`) states the five invocations of the test suite
  as lemmas, with their exact envelopes and callback arguments. Each lemma is
  proved from the general theorems.

The reference descriptions `FirstDecisiveAt`, `FirstDeliveryAfter`,
`NoDecisive` and `NoDeliveryAfter` state which event wins and which delivery
counts by looking at positions in the event sequence. They do not use `Step`.
The theorems connect `Run` to them.

## Model

| member | source | states |
|---|---|---|
| JsValue.Or | helper.js:78 | `data \|\| {}`: the result is one of the operands; it is truthy iff either operand is; the left operand is kept exactly when it is truthy |
| JsValue.Assign | helper.js:7-13 | `Object.assign`: the keys are the union of both objects; on a shared key the source's value wins; other target values are kept |
| Reporter.Envelope | helper.js:7-13 | the body's keys are the three correlation ids, `Data`, `Reason` and the result's keys; the result's own fields override; otherwise the ids are read from the event, `Data = {}` and `Reason = ''` |
| Reporter.EnvelopeShape | helper.js:7-13 | for a result record, the envelope has exactly the six documented fields, and no other property of the event (such as `RequestType` or `ResponseURL`) gets into it |
| Reporter.EnvelopeRoundTrip | helper.js:7-13 | the event's correlation ids can be read back from the envelope, and so can the result record, field for field |
| Reporter.Send | helper.js:15-44 | `send` issues a PUT iff `ResponseURL` is a string; the PUT goes to that URL with the envelope as its body; otherwise it throws the `TypeError` of `url.parse` for that value, and no request exists |
| Reporter.Settle | helper.js:29-40 | the send promise resolves iff a response arrives with status < 300; any other status rejects with that response; a request error rejects with that error |
| Coordinator.Delay | helper.js:51 | the timer delay is never negative; it leaves at least the 1000 ms margin (`d + 1000 >= remaining`); it is 0 or exactly `remaining - 1000` |
| Coordinator.Normalise | helper.js:69-86 | status is SUCCESS iff `fn` neither throws nor rejects; then `Data` is the fulfilled value when that is truthy, and exactly `{}` when `fn` is not a function or fulfils with a falsy value; a throw or a rejection gives FAILED with `Reason` = the error's message and no `Data` |
| Coordinator.Dispatch | helper.js:64-66 | the callback gets no error iff the PUT got a status below 300; otherwise it gets the rejection reason of `send`. The function path does the same at helper.js:96-98 |
| Coordinator.Init | helper.js:49-52 | a new invocation is not finished, its timer is armed with `Delay(remaining)`, no PUT is in flight, nothing has been sent, called or thrown, and the invariant `Consistent` holds |
| Coordinator.Step | helper.js:52-98 | each event keeps the invariant `Consistent`: nothing before `finished`; after it, one PUT that is in flight or has one callback, or, for an unparsable URL, no PUT and exactly one callback or uncaught error. A racer arriving after `finished` is a no-op. The first racer sets `finished` and appends exactly one PUT carrying its own result when the URL parses. Otherwise the function path passes the `TypeError` to the callback, and the timer path records it as uncaught. The function path clears the timer. A delivery never sends |
| Coordinator.ReportedFields | helper.js:59-86 | the PUT body of each winning path: the timeout gives FAILED / 'Lambda function timed out' / `{}`; a success gives SUCCESS / '' / the truthy value, or `{}`; an error gives FAILED / its message / `{}` |
| Coordinator.RunKeepsConsistent | helper.js:49-99 | the invariant of `Step` holds after any sequence of events |
| Coordinator.FirstWriterWins | helper.js:53-94 | whichever of {timer fires, function settles} comes first sends the one and only PUT, with its own result, when the URL parses, and nothing is sent when it does not; the timer ends up cleared iff the function won, and fired otherwise |
| Coordinator.CallbackOnce | helper.js:57-98 | for a parsable URL the callback is called once, with the outcome of the first delivery after the win; it is not called while the PUT is still in flight, and the losing path never calls it. For an unparsable URL, a function win calls it once with the `TypeError`; a timer win leaves the error uncaught and never calls it |
| Coordinator.NothingBeforeARacer | helper.js:49-52 | until a racer arrives, the invocation is in its initial state: nothing has been sent, called or thrown |
| Coordinator.AtMostOneSend | helper.js:49-98 | for every ordering of events there is at most one PUT and at most one callback call; there is exactly one PUT iff the timer or the function event occurred and the URL parses; the only callback without a PUT is the function path's `TypeError` for an unparsable URL |
| Scenarios.SuccessScenario | test/spec.js:8-40 | a function resolving with no value PUTs `{StackId:'123', RequestId:'456', LogicalResourceId:'789', Data:{}, Reason:'', Status:'SUCCESS'}`; a 200 gives a callback with no error |
| Scenarios.ThrowScenario | test/spec.js:42-74 | a throw of `Error('blahblahblah')` PUTs `Reason:'blahblahblah'`, `Status:'FAILED'`, `Data:{}` |
| Scenarios.TimeoutScenario | test/spec.js:76-108 | with 100 ms left the delay is 0; the timer's PUT carries 'Lambda function timed out'; the function settling later changes nothing |
| Scenarios.BadStatusScenario | test/spec.js:110-139 | a 500 reply to a SUCCESS report gives the callback an error |
| Scenarios.TransportScenario | test/spec.js:141-169 | the PUT body carries the test's `RequestId` `'456 '` with its trailing space; a transport-level request failure gives the callback that error |

## Left out

- The HTTPS exchange in `send` (helper.js:29-44): the model does not cover `https.request`, the socket events, or the request `write` and `end`. A PUT is recorded as `Put(url, body)`, and the network's answer is an abstract `SendOutcome`. The fixed port 443 and the method PUT are constants that the model does not represent.
- The request headers (helper.js:23-26): the model has neither the empty `content-type` nor `content-length`. The code sets `content-length` to `json.length`, the UTF-16 length of the string. It is not a byte length, so for a non-ASCII body it is smaller than the number of UTF-8 bytes written. The model makes no claim about it.
- `url.parse` and the hostname/path split (helper.js:17-21): the PUT target is the event's `ResponseURL` string, kept opaque. Every string is treated as parsable. Only a missing or non-string value throws.
- `JSON.stringify` (helper.js:15): the body is kept as an object. Key order and the dropping of `undefined` members during serialisation are not modelled.
- Timer and microtask scheduling (`setTimeout`, `Promise` chaining): the model replaces them with an arbitrary order of abstract events. It does not encode which event the Node.js event loop would deliver first for given delays. Node's clamping of out-of-range `setTimeout` delays is not modelled either.
- `context.getRemainingTimeInMillis()` is read once, as the integer `Invocation.remaining`. The wrapped function's arguments `(event, context)` are not modelled: what `fn` does is a fixed `Work` value.
- A callback that throws inside `.then(() => callback())` makes the following `.catch` call the callback a second time. This happens on the timer path (helper.js:64-66) and on the function path (helper.js:96-98). It is not a designed behaviour, so `CallbackOnce` states nothing about it.
- What the runtime does with the error that escapes the timer callback, for example ending the process, is not modelled. The model only logs it in `State.uncaught`.
- A thrown value that is not an `Error` (helper.js:84): such a value has no `message`, and throwing `null` or `undefined` raises a `TypeError` in the `catch`. Errors are modelled as `Error(message)` only.
- JsValue.Or: JavaScript numbers are modelled as integers, so the truthiness of `NaN`, `-0` and fractions is not covered.
- Reporter.Settle: a rejection for a bad status carries the whole response object in the code; the model keeps only its status code (`BadStatus(code)`).
- Coordinator.Dispatch: on a bad status the callback receives the whole response object. The model keeps only its status code (`BadStatus(code)`).
