/** The catch-all not-found middleware `defaultHandler` (lib/default-handler.js). */
module DefaultHandlers {
  import opened Js
  import opened HttpErrors

  const NOT_FOUND_STATUS := Num(404)
  const NOT_FOUND_MESSAGE := "Requested resource was not found!"

  /**
   * `defaultHandler(req, res, next)` calls `next` once, with the error returned
   * here: a 404 `HttpError`. `stack` is the trace captured when it is built.
   */
  function DefaultHandler<Req, Res>(req: Req, res: Res, stack: string): (err: ErrorObject)
    ensures IsHttpError(err)
    ensures err.code == Num(404)
    ensures err.message == "Requested resource was not found!"
  {
    NewHttpError(NOT_FOUND_STATUS, NOT_FOUND_MESSAGE, stack)
  }

  /** The error passed on does not depend on the request or the response. */
  lemma DefaultHandlerIgnoresRequest<Req, Res>(req1: Req, res1: Res, req2: Req, res2: Res, stack: string)
    ensures DefaultHandler(req1, res1, stack) == DefaultHandler(req2, res2, stack)
  {
  }

  /** The message matches the regular expression /not found/i. */
  lemma NotFoundMessageMatches<Req, Res>(req: Req, res: Res, stack: string)
    ensures ContainsIgnoringCase(DefaultHandler(req, res, stack).message, "not found")
  {
    var m := Lower(NOT_FOUND_MESSAGE);
    assert m[23..32] == "not found";
    assert OccursAt(m, Lower("not found"), 23);
  }
}
