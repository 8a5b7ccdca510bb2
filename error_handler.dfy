/** The error-to-response middleware `errorHandler` (lib/error-handler.js). */
module ErrorHandling {
  import opened Wrappers
  import opened Js
  import opened HttpErrors
  import opened DefaultHandlers

  const INTERNAL_ERROR_STATUS := Num(500)

  /**
   * The three properties of the caught value that the handler reads. The
   * value need not be an Error instance: any object with these properties will do.
   */
  datatype ErrorProps = ErrorProps(code: JsValue, message: JsValue, stack: JsValue)

  /** The properties of an Error instance. */
  function PropsOf(e: ErrorObject): ErrorProps {
    ErrorProps(e.code, Str(e.message), Str(e.stack))
  }

  /** The object handed to `res.json`; `stack` is `None` when the key is absent. */
  datatype ResponseBody = ResponseBody(message: JsValue, stack: Option<JsValue>)

  /** One call made on the response object. */
  datatype ResponseCall = Status(code: JsValue) | Json(body: ResponseBody)

  /** `process.env.NODE_ENV === 'production'`; an unset variable is not production. */
  predicate IsProduction(nodeEnv: Option<string>) {
    nodeEnv == Some("production")
  }

  /**
   * The response status `err.code || 500`: the code when it is truthy, 500
   * otherwise. The status is therefore never falsy.
   */
  function StatusFor(code: JsValue): (status: JsValue)
    ensures Truthy(status)
    ensures Truthy(code) ==> status == code
    ensures !Truthy(code) ==> status == Num(500)
  {
    if Truthy(code) then code else INTERNAL_ERROR_STATUS
  }

  /**
   * The JSON body: always the error's message, and its stack exactly when the
   * environment is not production.
   */
  function BodyFor(err: ErrorProps, nodeEnv: Option<string>): (body: ResponseBody)
    ensures body.message == err.message
    ensures body.stack.Some? <==> !IsProduction(nodeEnv)
    ensures body.stack.Some? ==> body.stack.value == err.stack
  {
    ResponseBody(err.message, if IsProduction(nodeEnv) then None else Some(err.stack))
  }

  /** The Express response object, recording the calls made on it. */
  class Response {
    var calls: seq<ResponseCall>

    constructor ()
      ensures calls == []
    {
      calls := [];
    }

    /** `res.status(code)`. */
    method SetStatus(code: JsValue)
      modifies this
      ensures calls == old(calls) + [Status(code)]
    {
      calls := calls + [Status(code)];
    }

    /** `res.json(body)`. */
    method SendJson(body: ResponseBody)
      modifies this
      ensures calls == old(calls) + [Json(body)]
    {
      calls := calls + [Json(body)];
    }
  }

  /** The Express `next` callback, recording the values passed to it. */
  class Next {
    var calls: seq<JsValue>

    constructor ()
      ensures calls == []
    {
      calls := [];
    }

    /** `next(v)`. */
    method Call(v: JsValue)
      modifies this
      ensures calls == old(calls) + [v]
    {
      calls := calls + [v];
    }
  }

  /**
   * `errorHandler(err, req, res, next)`: sets the status once, then sends the
   * JSON body once, and never calls `next`. The caught value is a datatype
   * value, so it cannot be modified.
   */
  method ErrorHandler<Req>(err: ErrorProps, req: Req, res: Response, next: Next, nodeEnv: Option<string>)
    modifies res
    ensures res.calls == old(res.calls) + [Status(StatusFor(err.code)), Json(BodyFor(err, nodeEnv))]
    ensures next.calls == old(next.calls)
  {
    res.SetStatus(if Truthy(err.code) then err.code else INTERNAL_ERROR_STATUS);
    var response := ResponseBody(err.message, None);
    if nodeEnv != Some("production") {
      response := response.(stack := Some(err.stack));
    }
    res.SendJson(response);
  }

  /**
   * The status follows JavaScript truthiness: falsy codes (0, "", null,
   * undefined, NaN, false) all give 500, and a string code is sent verbatim.
   */
  lemma StatusFollowsTruthiness()
    ensures StatusFor(Num(404)) == Num(404)
    ensures StatusFor(Str("404")) == Str("404")
    ensures StatusFor(Num(0)) == StatusFor(Str("")) == StatusFor(Null) == Num(500)
    ensures StatusFor(Undefined) == StatusFor(NaN) == StatusFor(Bool(false)) == Num(500)
  {
  }

  /**
   * Handling an `HttpError`: the status is its code (500 if that code is
   * falsy), the body carries its message, and its stack unless in production.
   */
  lemma HttpErrorResponse(code: JsValue, message: string, stack: string, nodeEnv: Option<string>)
    ensures var err := PropsOf(NewHttpError(code, message, stack));
      && StatusFor(err.code) == (if Truthy(code) then code else Num(500))
      && BodyFor(err, nodeEnv)
         == (if IsProduction(nodeEnv) then ResponseBody(Str(message), None)
             else ResponseBody(Str(message), Some(Str(stack))))
  {
  }

  /**
   * The not-found error of `defaultHandler`, handled by `errorHandler`, gives
   * a 404 response whose body carries the not-found message.
   */
  lemma NotFoundResponse<Req, Res>(req: Req, res: Res, stack: string, nodeEnv: Option<string>)
    ensures var err := PropsOf(DefaultHandler(req, res, stack));
      && StatusFor(err.code) == Num(404)
      && BodyFor(err, nodeEnv).message == Str("Requested resource was not found!")
  {
  }
}
