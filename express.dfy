/**
 * What a handler does with Express's `res` and `next`. A handler's run is one
 * Outcome value, so every path either writes one response or calls `next` once.
 */
module Express {
  import opened Wrappers
  import opened Errors
  import opened Store

  /** What a handler passes to `next(err)`: one of the error classes, or a caught error unchanged. */
  datatype Failure = Typed(err: Err) | Raw(thrown: Thrown)

  /** `res.cookie(name, value, { httpOnly })` */
  datatype Cookie = Cookie(name: string, value: string, httpOnly: bool)

  /** One response written by `res.status(s).send(body)` (and the cookie set before it, if any). */
  datatype Response<B> = Response(status: Status, body: B, cookie: Option<Cookie>)

  /** A handler's single effect on the pipeline. */
  datatype Outcome<B> = Respond(response: Response<B>) | Next(failure: Failure)
}
