/** The status-bearing error `HttpError` (lib/http-error.js). */
module HttpErrors {
  import opened Js

  /** `e` was built by the `HttpError` constructor. */
  predicate IsHttpError(e: ErrorObject) {
    e.kind == HttpError
  }

  /**
   * `new HttpError(code, message)`: an Error instance whose `code` is the
   * argument as given (number or string alike), whose `message` is the message
   * argument, and whose stack is the one captured at construction. Total.
   */
  function NewHttpError(code: JsValue, message: string, stack: string): (e: ErrorObject)
    ensures IsHttpError(e)
    ensures e.code == code && e.message == message && e.stack == stack
  {
    ErrorObject(HttpError, message, stack, code)
  }

  /**
   * The constructor coerces nothing: distinct arguments give distinct errors,
   * so in particular the code '404' is not turned into 404.
   */
  lemma NewHttpErrorInjective(code1: JsValue, message1: string, code2: JsValue, message2: string, stack: string)
    requires NewHttpError(code1, message1, stack) == NewHttpError(code2, message2, stack)
    ensures code1 == code2 && message1 == message2
  {
  }

  /** The string code '404' is kept as a string. */
  lemma StringCodeKeptVerbatim(message: string, stack: string)
    ensures NewHttpError(Str("404"), message, stack).code == Str("404")
    ensures NewHttpError(Str("404"), message, stack).code != Num(404)
  {
  }
}
