# omphalos-error-utils, modelled in Dafny

A model of the error-handling kit of a Node.js service: the status error
`HttpError`, the not-found middleware `defaultHandler`, the error-to-response
middleware `errorHandler`, and the process-wide drain for unhandled failures
(`initUnhandledErrorsHandler` and its two process listeners).

- `wrappers.dfy` (`Wrappers`): `Option`.
- `js.dfy` (`Js`): the JavaScript values the kit inspects (`undefined`, `null`,
  booleans, numbers, `NaN`, strings, objects, functions, Error instances),
  their truthiness, `String(v)`, and `new Error(message)`.
- `http_error.dfy` (`HttpErrors`): `new HttpError(code, message)`.
- `default_handler.dfy` (`DefaultHandlers`): `defaultHandler` as a function
  returning the one error it passes to `next`.
- `error_handler.dfy` (`ErrorHandling`): `errorHandler` as a method over a
  response object that records its `status` and `json` calls; the status
  (`err.code || 500`) and the body are specified by two functions.
- `unhandled_errors_handler.dfy` (`UnhandledErrors`): the drain as a class
  holding the sink `_logFn`, a listener count per process event and a trace of
  effects (`Log(sink, line)`, `Wait(ms)`, `Exit(status)`). Its init method is
  specified by the pure state machine `Init` over `DrainState`; a run of any
  number of init calls (`InitRun`) is characterised in closed form by
  `InitRunLifecycle`. The listeners' effects are specified by `RejectionTrace`
  and `ExceptionTrace`.

Environment inputs are parameters: the stack a new Error captures (`stack`),
`process.env.NODE_ENV` (`nodeEnv: Option<string>`), and the causal-chain
serialiser `NestedError.asStringified` (`asStringified: ErrorObject -> string`).
Process exit and the one-second flush delay are trace events.

## Model

| member | source | states |
|---|---|---|
| `Js.NewError` | lib/unhandled-errors-handler.js:31-33 | `new Error(m)` is an Error instance of class Error with message `m`, the captured stack, and no code |
| `Js.NaturalStringValue` | lib/unhandled-errors-handler.js:30-31 | the digits `String(n)` yields for a numeric reason read back as `n`, so the conversion loses nothing |
| `HttpErrors.NewHttpError` | lib/http-error.js:3-8 | an `HttpError` is an Error instance; its code is the argument as given, its message the message argument, and its stack the captured one; construction is total |
| `HttpErrors.NewHttpErrorInjective` | lib/http-error.js:4-6 | nothing is coerced: equal errors come only from equal code and message arguments |
| `HttpErrors.StringCodeKeptVerbatim` | lib/http-error.js:6 | the string code '404' stays the string '404', not the number 404 |
| `DefaultHandlers.DefaultHandler` | lib/default-handler.js:5-6 | the value passed to `next` is an `HttpError` (an Error) with code 404 and message "Requested resource was not found!" |
| `DefaultHandlers.DefaultHandlerIgnoresRequest` | lib/default-handler.js:5-6 | the error does not depend on `req` or `res` |
| `DefaultHandlers.NotFoundMessageMatches` | lib/default-handler.js:6 | the message matches /not found/i |
| `ErrorHandling.StatusFor` | lib/error-handler.js:5 | the status is the code when the code is truthy and 500 otherwise; the status is never falsy |
| `ErrorHandling.BodyFor` | lib/error-handler.js:7-12 | the body's message is the error's message; the body has a stack key exactly when `NODE_ENV` is not "production", holding the error's stack |
| `ErrorHandling.ErrorHandler` | lib/error-handler.js:4-15 | exactly two calls on the response, `status` first and `json` second, with the status and body above; `next` is not called |
| `ErrorHandling.StatusFollowsTruthiness` | lib/error-handler.js:5 | 404 and '404' are sent verbatim; 0, "", null, undefined, NaN and false all give 500 |
| `ErrorHandling.HttpErrorResponse` | lib/error-handler.js:5-14 | for an `HttpError`: status is its code (500 if falsy), body is `{message}` in production and `{message, stack}` otherwise |
| `ErrorHandling.NotFoundResponse` | lib/default-handler.js:6 | the not-found error, once handled by `errorHandler`, gives status 404 and the not-found message |
| `UnhandledErrors.Init` | lib/unhandled-errors-handler.js:14-39 | init keeps the state consistent (listeners registered exactly when the sink is set, one per event), and changes the state exactly when it succeeds |
| `UnhandledErrors.InitWithCallableSucceeds` | lib/unhandled-errors-handler.js:19-22 | the first init with a function succeeds, records it as the sink, and leaves the drain initialised |
| `UnhandledErrors.InitRegistersOnePerEvent` | lib/unhandled-errors-handler.js:24-39 | a successful first init registers exactly one `unhandledRejection` and one `uncaughtException` listener |
| `UnhandledErrors.InitAfterInitFails` | lib/unhandled-errors-handler.js:16-17 | once initialised, init with any argument (a non-function too) throws an Error containing "Illegal attempt to initialize multiple times" and changes nothing |
| `UnhandledErrors.InitWithNonCallableFails` | lib/unhandled-errors-handler.js:19-20 | before initialisation, a non-function argument throws a TypeError containing "logFn argument is not a function" and changes nothing |
| `UnhandledErrors.InitRetryAfterTypeError` | lib/unhandled-errors-handler.js:19-22 | after a rejected non-function, a later init with a function succeeds with one listener per event |
| `UnhandledErrors.InitRunLifecycle` | lib/unhandled-errors-handler.js:14-40 | over any sequence of init calls: each call's outcome is "multiple times" once some earlier call succeeded, else success exactly for a function, else TypeError; the final sink is the first function given; the state stays consistent |
| `UnhandledErrors.InitSucceedsAtMostOnce` | lib/unhandled-errors-handler.js:16-22 | in any sequence of init calls from the loaded module, at most one call succeeds |
| `UnhandledErrors.NormalizeReason` | lib/unhandled-errors-handler.js:28-33 | an Error reason is used as it is; any other truthy reason becomes a new Error whose message is `String(reason)`; a falsy reason becomes a new Error with message "Rejection does not come with a reason" |
| `UnhandledErrors.FailureTraceOrder` | lib/unhandled-errors-handler.js:7-11 | one failure gives exactly three lines, all to the sink, in order marker, message, serialised chain; exactly one exit, with status 1, last, right after the 1000 ms wait |
| `UnhandledErrors.RejectionLines` | lib/unhandled-errors-handler.js:25-34 | a rejection logs the rejection marker, the normalised error's message and its serialisation, then exits once with status 1 |
| `UnhandledErrors.ExceptionLines` | lib/unhandled-errors-handler.js:35-39 | an uncaught exception logs the exception marker, the error's own message and its serialisation, then exits once with status 1 |
| `UnhandledErrors.RejectionMessageLine` | lib/unhandled-errors-handler.js:28-33 | the second line of a rejection is the Error's message, `String(reason)`, or the placeholder, by the three cases |
| `UnhandledErrors.RejectionWithStringReason` | lib/unhandled-errors-handler.js:30-31 | rejecting with 'only reason' logs 'only reason' as the second line |
| `UnhandledErrors.RejectionWithErrorReason` | lib/unhandled-errors-handler.js:28-29 | an Error reason, an `HttpError` among them, gives its own message and its serialisation |
| `UnhandledErrors.RejectionWithoutReason` | lib/unhandled-errors-handler.js:32-33 | every falsy reason, `undefined` among them, logs "Rejection does not come with a reason" as the second line |
| `UnhandledErrors.UnhandledErrorsHandler.constructor` | lib/unhandled-errors-handler.js:5 | the loaded module has no sink, no listeners and an empty trace |
| `UnhandledErrors.UnhandledErrorsHandler.InitUnhandledErrorsHandler` | lib/unhandled-errors-handler.js:14-40 | the new state and the outcome are those of `Init`; nothing is logged; the state stays consistent |
| `UnhandledErrors.UnhandledErrorsHandler.HandleUnhandledError` | lib/unhandled-errors-handler.js:7-12 | appends message, serialised chain, the 1000 ms wait, and exit with status 1, in that order |
| `UnhandledErrors.UnhandledErrorsHandler.OnUnhandledRejection` | lib/unhandled-errors-handler.js:25-34 | when registered, appends the rejection trace: three new lines (marker, normalised message, serialisation) and one new exit request with status 1; otherwise nothing |
| `UnhandledErrors.UnhandledErrorsHandler.OnUncaughtException` | lib/unhandled-errors-handler.js:35-39 | when registered, appends the exception trace: three new lines (marker, message, serialisation) and one new exit request with status 1; otherwise nothing |

## Left out

- `lib/nested-error.js` is not part of this model: `NestedError` and its
  serialiser `asStringified` appear only as a total function parameter, so the
  JSON shape of the serialised chain (message, stack, inner error, code) is not
  stated or proved. Error values carry no inner cause (`Js.ErrorObject` has
  only kind, message, stack and code), so the serialised line depends on
  those four alone and two errors that differ only in their cause are logged
  identically.
- `UnhandledErrors.FailureTraceOrder`, `UnhandledErrors.UnhandledErrorsHandler.Log`,
  `UnhandledErrors.UnhandledErrorsHandler.HandleUnhandledError`,
  `UnhandledErrors.UnhandledErrorsHandler.OnUnhandledRejection` and
  `UnhandledErrors.UnhandledErrorsHandler.OnUncaughtException`: the sink
  `_logFn` is assumed to return normally. A throwing sink is not modelled: in
  `handleUnhandledError` it would reject the returned promise, so no exit is
  requested and the failure comes back through the `unhandledRejection`
  listener; in a listener's marker call it would escape the listener. The
  promise of exactly one exit with status 1 per failure holds only for a sink
  that does not throw.
- Process mechanics: `process.on` is modelled as a listener count per event,
  `process.exit` as an `Exit` trace event (the process is not ended, so nothing
  is said about what happens after it), the `setTimeout` of 1000 ms as a `Wait`
  event.
- Concurrency: each failure occurrence's effects are appended as one block;
  interleaving of several occurrences, `nextTick` and promise timing are not modelled.
- Stack traces (`Error.captureStackTrace`, `err.stack`) are opaque strings
  passed in by the caller.
- `UnhandledErrors.UnhandledErrorsHandler.OnUncaughtException` takes an Error
  instance. A thrown non-Error value (`throw 'x'`, `throw null`) would make
  `err.message` undefined or throw inside `handleUnhandledError`; that path
  is not modelled.
- `NormalizeReason`: reasons that are Symbols (for which `new Error(reason)`
  itself throws) and BigInts are not among the modelled values.
- JavaScript numbers are integers here: fractions, `-0`, infinities and the
  exponent form `String()` uses from 1e21 upwards are not modelled.
- `HttpErrors.NewHttpError` takes the message as a string; the optional
  `options` argument the rest parameters forward to `Error`, and a missing or
  non-string message, are not modelled.
- Express objects: in `ErrorHandling.ErrorHandler`, `req` is a type parameter
  nobody inspects and `res` and `next` are recorders of the calls made on
  them. In `DefaultHandlers.DefaultHandler`, `req` and `res` are uninspected
  type parameters and the single call to `next` is the function's result.
- `index.js` only re-exports the modules and is not modelled.
