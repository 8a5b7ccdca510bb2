/**
 * The process-wide unhandled-failure drain (lib/unhandled-errors-handler.js):
 * a once-only initialisation over the module-level sink `_logFn`, two process
 * listeners, and the shutdown sequence each failure triggers.
 *
 * The process is abstracted as a trace of effects: lines handed to the sink,
 * the grace-period wait, and the exit request.
 */
module UnhandledErrors {
  import opened Wrappers
  import opened Js

  const REJECTION_MARKER := "Failure: Unhandled rejection detected!"
  const EXCEPTION_MARKER := "Failure: Uncaught exception detected!"
  const NO_REASON_MESSAGE := "Rejection does not come with a reason"
  /** The prefix naming the function in both of its error messages. */
  const INIT_PREFIX := "initUnhandledErrorsHandler(logFn): "
  const MULTIPLE_INIT_MESSAGE := INIT_PREFIX + "Illegal attempt to initialize multiple times"
  const NOT_A_FUNCTION_MESSAGE := INIT_PREFIX + "logFn argument is not a function"
  /** The delay, in milliseconds, that lets the sink flush before exit. */
  const GRACE_PERIOD_MS: nat := 1000
  const EXIT_STATUS := 1

  /** What `initUnhandledErrorsHandler` throws. */
  datatype InitError = MultipleInit | NotAFunction {
    /** The constructor of the thrown error: `Error` or `TypeError`. */
    function Kind(): ErrorClass {
      match this
      case MultipleInit => BaseError
      case NotAFunction => TypeError
    }

    function Message(): string {
      match this
      case MultipleInit => MULTIPLE_INIT_MESSAGE
      case NotAFunction => NOT_A_FUNCTION_MESSAGE
    }
  }

  /** The outcome of one `initUnhandledErrorsHandler` call: returns normally, or throws. */
  datatype InitResult = Ok | Throws(error: InitError)

  /** One observable effect of the drain. */
  datatype Effect =
    | Log(sink: Callable, line: string)  // `_logFn(line)`
    | Wait(ms: nat)                      // `await` a `setTimeout` of `ms`
    | Exit(status: int)                  // `process.exit(status)`

  /**
   * The drain's state: the sink `_logFn` (unset until a successful init) and
   * how many listeners the module has put on each of the two process events.
   */
  datatype DrainState = DrainState(logFn: Option<Callable>, rejectionListeners: nat, exceptionListeners: nat) {
    /** `_logFn` is truthy, which is what the guard tests. */
    predicate Initialized() {
      logFn.Some?
    }

    /** Listeners are on the events exactly when the sink is set, one per event. */
    predicate Consistent() {
      if logFn.None? then rejectionListeners == 0 && exceptionListeners == 0
      else rejectionListeners == 1 && exceptionListeners == 1
    }
  }

  /** The state when the module is first loaded. */
  const UNINITIALIZED := DrainState(None, 0, 0)

  /**
   * `initUnhandledErrorsHandler(logFn)`: first the already-initialised guard,
   * then the type check; only when both pass is the sink recorded and one
   * listener added to each event. The result keeps the state consistent.
   */
  function Init(s: DrainState, logFn: JsValue): (r: (DrainState, InitResult))
    ensures s.Consistent() ==> r.0.Consistent()
    ensures r.1 == Ok <==> r.0 != s
  {
    if s.Initialized() then (s, Throws(MultipleInit))
    else if !logFn.Fn? then (s, Throws(NotAFunction))
    else (DrainState(Some(logFn.f), s.rejectionListeners + 1, s.exceptionListeners + 1), Ok)
  }

  /** The first init with a callable sink succeeds, records it, and leaves the drain initialised. */
  lemma InitWithCallableSucceeds(s: DrainState, f: Callable)
    requires !s.Initialized()
    ensures Init(s, Fn(f)).1 == Ok
    ensures Init(s, Fn(f)).0.logFn == Some(f) && Init(s, Fn(f)).0.Initialized()
  {
  }

  /** A successful init from the initial state registers exactly one listener per event. */
  lemma InitRegistersOnePerEvent(f: Callable)
    ensures Init(UNINITIALIZED, Fn(f)).0.rejectionListeners == 1
    ensures Init(UNINITIALIZED, Fn(f)).0.exceptionListeners == 1
  {
  }

  /**
   * Once initialised, every init throws the "multiple times" error and changes
   * nothing, whatever its argument: the guard comes before the type check.
   */
  lemma InitAfterInitFails(s: DrainState, logFn: JsValue)
    requires s.Initialized()
    ensures Init(s, logFn) == (s, Throws(MultipleInit))
    ensures Init(s, logFn).1.error.Kind() == BaseError
    ensures Contains(Init(s, logFn).1.error.Message(), "Illegal attempt to initialize multiple times")
  {
    var p := "Illegal attempt to initialize multiple times";
    assert MULTIPLE_INIT_MESSAGE[|INIT_PREFIX|..|INIT_PREFIX| + |p|] == p;
    assert OccursAt(MULTIPLE_INIT_MESSAGE, p, |INIT_PREFIX|);
  }

  /**
   * A non-callable sink throws a TypeError and leaves the state untouched:
   * still uninitialised, nothing registered.
   */
  lemma InitWithNonCallableFails(s: DrainState, logFn: JsValue)
    requires !s.Initialized() && !logFn.Fn?
    ensures Init(s, logFn) == (s, Throws(NotAFunction))
    ensures Init(s, logFn).1.error.Kind() == TypeError
    ensures Contains(Init(s, logFn).1.error.Message(), "logFn argument is not a function")
  {
    var p := "logFn argument is not a function";
    assert NOT_A_FUNCTION_MESSAGE[|INIT_PREFIX|..|INIT_PREFIX| + |p|] == p;
    assert OccursAt(NOT_A_FUNCTION_MESSAGE, p, |INIT_PREFIX|);
  }

  /** After a rejected non-callable sink, a later init with a callable sink succeeds. */
  lemma InitRetryAfterTypeError(bad: JsValue, f: Callable)
    requires !bad.Fn?
    ensures var s := Init(UNINITIALIZED, bad).0;
      Init(s, Fn(f)) == (DrainState(Some(f), 1, 1), Ok)
  {
  }

  /** A run of init calls from state `s`: the final state and each call's outcome. */
  function InitRun(s: DrainState, args: seq<JsValue>): (r: (DrainState, seq<InitResult>))
    ensures |r.1| == |args|
    decreases |args|
  {
    if args == [] then (s, [])
    else
      var first := Init(s, args[0]);
      var rest := InitRun(first.0, args[1..]);
      (rest.0, [first.1] + rest.1)
  }

  /** The sink of the first callable argument, if any. */
  function FirstCallable(args: seq<JsValue>): Option<Callable> {
    if args == [] then None
    else if args[0].Fn? then Some(args[0].f)
    else FirstCallable(args[1..])
  }

  /** Some argument before position `i` is callable. */
  predicate CallableBefore(args: seq<JsValue>, i: int) {
    exists j :: 0 <= j < i && j < |args| && args[j].Fn?
  }

  /**
   * What the `i`-th init call of a run from `s` does, stated without running
   * the earlier calls: "multiple times" once the drain was initialised or an
   * earlier argument was callable; otherwise success exactly for a callable.
   */
  function ExpectedOutcome(s: DrainState, args: seq<JsValue>, i: nat): InitResult
    requires i < |args|
  {
    if s.Initialized() || CallableBefore(args, i) then Throws(MultipleInit)
    else if args[i].Fn? then Ok
    else Throws(NotAFunction)
  }

  /**
   * The lifecycle over any sequence of init calls: each outcome is the
   * expected one, the state stays consistent, and the recorded sink is the
   * one already set or else the first callable argument.
   */
  lemma {:induction false} InitRunLifecycle(s: DrainState, args: seq<JsValue>)
    requires s.Consistent()
    ensures InitRun(s, args).0.Consistent()
    ensures InitRun(s, args).0.logFn == (if s.Initialized() then s.logFn else FirstCallable(args))
    ensures forall i :: 0 <= i < |args| ==> InitRun(s, args).1[i] == ExpectedOutcome(s, args, i)
    decreases |args|
  {
    if args != [] {
      var s1 := Init(s, args[0]).0;
      var tail := args[1..];
      InitRunLifecycle(s1, tail);
      var outs := InitRun(s, args).1;
      assert s1.Initialized() <==> s.Initialized() || args[0].Fn?;
      forall i | 0 <= i < |args|
        ensures outs[i] == ExpectedOutcome(s, args, i)
      {
        if i > 0 {
          assert outs[i] == InitRun(s1, tail).1[i - 1];
          assert CallableBefore(args, i) <==> args[0].Fn? || CallableBefore(tail, i - 1) by {
            if CallableBefore(tail, i - 1) {
              var j :| 0 <= j < i - 1 && j < |tail| && tail[j].Fn?;
              assert args[j + 1].Fn?;
            }
            if CallableBefore(args, i) && !args[0].Fn? {
              var j :| 0 <= j < i && j < |args| && args[j].Fn?;
              assert j > 0 && tail[j - 1].Fn?;
            }
          }
        }
      }
    }
  }

  /** Over any run from the initial state, at most one init call succeeds. */
  lemma InitSucceedsAtMostOnce(args: seq<JsValue>, i: nat, j: nat)
    requires i < |args| && j < |args|
    requires InitRun(UNINITIALIZED, args).1[i] == Ok && InitRun(UNINITIALIZED, args).1[j] == Ok
    ensures i == j
  {
    InitRunLifecycle(UNINITIALIZED, args);
    assert args[i].Fn? && !CallableBefore(args, i);
    assert args[j].Fn? && !CallableBefore(args, j);
  }

  /**
   * The normalised rejection reason: an Error reason as it is, a truthy
   * reason as `new Error(reason)`, a falsy one as an Error with the fixed
   * placeholder message. `stack` is the trace a new Error captures.
   */
  function NormalizeReason(reason: JsValue, stack: string): (e: ErrorObject)
    ensures InstanceOfError(reason) ==> e == reason.error
    ensures !InstanceOfError(reason) ==> e == NewError(if Truthy(reason) then ToJsString(reason) else NO_REASON_MESSAGE, stack)
  {
    if reason.Err? then reason.error
    else if Truthy(reason) then NewError(ToJsString(reason), stack)
    else NewError(NO_REASON_MESSAGE, stack)
  }

  /**
   * `handleUnhandledError(err)`: the message, then the serialised chain, to
   * the sink; the grace period; then exit with status 1.
   */
  function Shutdown(sink: Callable, err: ErrorObject, asStringified: ErrorObject -> string): seq<Effect> {
    [Log(sink, err.message), Log(sink, asStringified(err)), Wait(GRACE_PERIOD_MS), Exit(EXIT_STATUS)]
  }

  /** The effects of the `unhandledRejection` listener for one reason. */
  function RejectionTrace(sink: Callable, reason: JsValue, stack: string, asStringified: ErrorObject -> string): seq<Effect> {
    [Log(sink, REJECTION_MARKER)] + Shutdown(sink, NormalizeReason(reason, stack), asStringified)
  }

  /** The effects of the `uncaughtException` listener for one error. */
  function ExceptionTrace(sink: Callable, err: ErrorObject, asStringified: ErrorObject -> string): seq<Effect> {
    [Log(sink, EXCEPTION_MARKER)] + Shutdown(sink, err, asStringified)
  }

  /** The lines handed to the sink, in order. */
  function LogLines(t: seq<Effect>): seq<string> {
    if t == [] then []
    else (if t[0].Log? then [t[0].line] else []) + LogLines(t[1..])
  }

  /** The exit statuses requested, in order. */
  function Exits(t: seq<Effect>): seq<int> {
    if t == [] then []
    else (if t[0].Exit? then [t[0].status] else []) + Exits(t[1..])
  }

  lemma {:induction false} LogLinesAppend(a: seq<Effect>, b: seq<Effect>)
    ensures LogLines(a + b) == LogLines(a) + LogLines(b)
    decreases |a|
  {
    if a != [] {
      assert (a + b)[0] == a[0];
      assert (a + b)[1..] == a[1..] + b;
      LogLinesAppend(a[1..], b);
    } else {
      assert a + b == b;
    }
  }

  lemma {:induction false} ExitsAppend(a: seq<Effect>, b: seq<Effect>)
    ensures Exits(a + b) == Exits(a) + Exits(b)
    decreases |a|
  {
    if a != [] {
      assert (a + b)[0] == a[0];
      assert (a + b)[1..] == a[1..] + b;
      ExitsAppend(a[1..], b);
    } else {
      assert a + b == b;
    }
  }

  /**
   * One failure's effects: exactly three lines, all to the sink (marker,
   * message, serialised chain); exactly one exit, with status 1, as the last
   * effect, immediately after the grace-period wait.
   */
  lemma FailureTraceOrder(sink: Callable, marker: string, err: ErrorObject, asStringified: ErrorObject -> string)
    ensures var t := [Log(sink, marker)] + Shutdown(sink, err, asStringified);
      && LogLines(t) == [marker, err.message, asStringified(err)]
      && (forall i :: 0 <= i < |t| && t[i].Log? ==> t[i].sink == sink)
      && Exits(t) == [1]
      && t[|t| - 1] == Exit(1) && t[|t| - 2] == Wait(1000)
  {
    var t := [Log(sink, marker)] + Shutdown(sink, err, asStringified);
    assert t == [Log(sink, marker)] + [Log(sink, err.message)] + [Log(sink, asStringified(err))]
      + [Wait(GRACE_PERIOD_MS)] + [Exit(EXIT_STATUS)];
    LogLinesAppend([Log(sink, marker)] + [Log(sink, err.message)] + [Log(sink, asStringified(err))] + [Wait(GRACE_PERIOD_MS)], [Exit(EXIT_STATUS)]);
    LogLinesAppend([Log(sink, marker)] + [Log(sink, err.message)] + [Log(sink, asStringified(err))], [Wait(GRACE_PERIOD_MS)]);
    LogLinesAppend([Log(sink, marker)] + [Log(sink, err.message)], [Log(sink, asStringified(err))]);
    LogLinesAppend([Log(sink, marker)], [Log(sink, err.message)]);
    ExitsAppend([Log(sink, marker)] + [Log(sink, err.message)] + [Log(sink, asStringified(err))] + [Wait(GRACE_PERIOD_MS)], [Exit(EXIT_STATUS)]);
    ExitsAppend([Log(sink, marker)] + [Log(sink, err.message)] + [Log(sink, asStringified(err))], [Wait(GRACE_PERIOD_MS)]);
    ExitsAppend([Log(sink, marker)] + [Log(sink, err.message)], [Log(sink, asStringified(err))]);
    ExitsAppend([Log(sink, marker)], [Log(sink, err.message)]);
  }

  /**
   * An unhandled rejection: the rejection marker, then the normalised
   * error's message, then its serialisation; one exit with status 1, last.
   */
  lemma RejectionLines(sink: Callable, reason: JsValue, stack: string, asStringified: ErrorObject -> string)
    ensures var err := NormalizeReason(reason, stack);
      && LogLines(RejectionTrace(sink, reason, stack, asStringified)) == [REJECTION_MARKER, err.message, asStringified(err)]
      && Exits(RejectionTrace(sink, reason, stack, asStringified)) == [1]
  {
    FailureTraceOrder(sink, REJECTION_MARKER, NormalizeReason(reason, stack), asStringified);
  }

  /**
   * An uncaught exception: the exception marker, then the error's own message
   * (no normalisation), then its serialisation; one exit with status 1, last.
   */
  lemma ExceptionLines(sink: Callable, err: ErrorObject, asStringified: ErrorObject -> string)
    ensures LogLines(ExceptionTrace(sink, err, asStringified)) == [EXCEPTION_MARKER, err.message, asStringified(err)]
    ensures Exits(ExceptionTrace(sink, err, asStringified)) == [1]
  {
    FailureTraceOrder(sink, EXCEPTION_MARKER, err, asStringified);
  }

  /** The second line for a rejection reason: the Error's message, String(reason), or the placeholder. */
  lemma RejectionMessageLine(sink: Callable, reason: JsValue, stack: string, asStringified: ErrorObject -> string)
    ensures |LogLines(RejectionTrace(sink, reason, stack, asStringified))| == 3
    ensures LogLines(RejectionTrace(sink, reason, stack, asStringified))[1]
      == if reason.Err? then reason.error.message
         else if Truthy(reason) then ToJsString(reason)
         else "Rejection does not come with a reason"
  {
    RejectionLines(sink, reason, stack, asStringified);
  }

  /** Rejecting with the string 'only reason' logs 'only reason' as the second line. */
  lemma RejectionWithStringReason(sink: Callable, stack: string, asStringified: ErrorObject -> string)
    ensures |LogLines(RejectionTrace(sink, Str("only reason"), stack, asStringified))| == 3
    ensures LogLines(RejectionTrace(sink, Str("only reason"), stack, asStringified))[1] == "only reason"
  {
    RejectionMessageLine(sink, Str("only reason"), stack, asStringified);
  }

  /**
   * An Error reason (an `HttpError` included) is used as it is: its own
   * message is the second line and its serialisation the third.
   */
  lemma RejectionWithErrorReason(sink: Callable, e: ErrorObject, stack: string, asStringified: ErrorObject -> string)
    ensures LogLines(RejectionTrace(sink, Err(e), stack, asStringified)) == [REJECTION_MARKER, e.message, asStringified(e)]
  {
    RejectionLines(sink, Err(e), stack, asStringified);
  }

  /** Every falsy reason, `undefined` among them, logs the placeholder as the second line. */
  lemma RejectionWithoutReason(sink: Callable, reason: JsValue, stack: string, asStringified: ErrorObject -> string)
    requires !Truthy(reason)
    ensures |LogLines(RejectionTrace(sink, reason, stack, asStringified))| == 3
    ensures LogLines(RejectionTrace(sink, reason, stack, asStringified))[1] == NO_REASON_MESSAGE
  {
    RejectionMessageLine(sink, reason, stack, asStringified);
  }

  /**
   * The drain as the module holds it: the sink `_logFn`, the listeners it
   * has put on the process, and the trace of effects so far.
   * `asStringified` is the causal-chain serialiser of lib/nested-error.js.
   */
  class UnhandledErrorsHandler {
    const asStringified: ErrorObject -> string
    var logFn: Option<Callable>
    var rejectionListeners: nat
    var exceptionListeners: nat
    var trace: seq<Effect>

    function State(): DrainState
      reads this
    {
      DrainState(logFn, rejectionListeners, exceptionListeners)
    }

    ghost predicate Valid()
      reads this
    {
      State().Consistent()
    }

    /** The module as loaded: no sink, no listeners, nothing logged. */
    constructor (asStringified: ErrorObject -> string)
      ensures Valid() && State() == UNINITIALIZED && trace == []
      ensures this.asStringified == asStringified
    {
      this.asStringified := asStringified;
      logFn := None;
      rejectionListeners, exceptionListeners := 0, 0;
      trace := [];
    }

    /** `initUnhandledErrorsHandler(logFn)`. */
    method InitUnhandledErrorsHandler(arg: JsValue) returns (result: InitResult)
      requires Valid()
      modifies this
      ensures Valid()
      ensures (State(), result) == Init(old(State()), arg)
      ensures trace == old(trace)
    {
      if logFn.Some? {
        return Throws(MultipleInit);
      }
      if !arg.Fn? {
        return Throws(NotAFunction);
      }
      logFn := Some(arg.f);
      rejectionListeners := rejectionListeners + 1;
      exceptionListeners := exceptionListeners + 1;
      result := Ok;
    }

    /** `_logFn(line)`. */
    method Log(line: string)
      requires logFn.Some?
      modifies this`trace
      ensures trace == old(trace) + [Effect.Log(logFn.value, line)]
    {
      trace := trace + [Effect.Log(logFn.value, line)];
    }

    /** `handleUnhandledError(err)`: log, log, wait, exit. */
    method HandleUnhandledError(err: ErrorObject)
      requires logFn.Some?
      modifies this`trace
      ensures trace == old(trace) + Shutdown(logFn.value, err, asStringified)
    {
      Log(err.message);
      Log(asStringified(err));
      trace := trace + [Wait(GRACE_PERIOD_MS)];
      trace := trace + [Exit(EXIT_STATUS)];
    }

    /**
     * The process emits `unhandledRejection` with `reason`; the module's
     * listener runs when registered. `stack` is what a new Error captures.
     */
    method OnUnhandledRejection(reason: JsValue, stack: string)
      requires Valid()
      modifies this`trace
      ensures trace == old(trace) + (if logFn.Some? then RejectionTrace(logFn.value, reason, stack, asStringified) else [])
      ensures logFn.Some? ==>
        (LogLines(trace) == LogLines(old(trace))
           + [REJECTION_MARKER, NormalizeReason(reason, stack).message, asStringified(NormalizeReason(reason, stack))])
      ensures logFn.Some? ==> Exits(trace) == Exits(old(trace)) + [EXIT_STATUS]
      ensures logFn.None? ==> trace == old(trace)
    {
      if rejectionListeners > 0 {
        Log(REJECTION_MARKER);
        HandleUnhandledError(NormalizeReason(reason, stack));
        RejectionLines(logFn.value, reason, stack, asStringified);
        LogLinesAppend(old(trace), RejectionTrace(logFn.value, reason, stack, asStringified));
        ExitsAppend(old(trace), RejectionTrace(logFn.value, reason, stack, asStringified));
      }
    }

    /** The process emits `uncaughtException` with `err`; the module's listener runs when registered. */
    method OnUncaughtException(err: ErrorObject)
      requires Valid()
      modifies this`trace
      ensures trace == old(trace) + (if logFn.Some? then ExceptionTrace(logFn.value, err, asStringified) else [])
      ensures logFn.Some? ==> LogLines(trace) == LogLines(old(trace)) + [EXCEPTION_MARKER, err.message, asStringified(err)]
      ensures logFn.Some? ==> Exits(trace) == Exits(old(trace)) + [EXIT_STATUS]
      ensures logFn.None? ==> trace == old(trace)
    {
      if exceptionListeners > 0 {
        Log(EXCEPTION_MARKER);
        HandleUnhandledError(err);
        ExceptionLines(logFn.value, err, asStringified);
        LogLinesAppend(old(trace), ExceptionTrace(logFn.value, err, asStringified));
        ExitsAppend(old(trace), ExceptionTrace(logFn.value, err, asStringified));
      }
    }
  }
}
