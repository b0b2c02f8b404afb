/**
  What the controllers send back: the JSON envelope built by `response(...)` and the HTTP
  status it goes out with.
 */
module Http {
  import opened Js

  /** The five keys of every JSON body: `success`, `statusCode`, `responseMsg`,
      `errorMsg` and `response` (`null` is `None`). */
  datatype Envelope<P> = Envelope(
    success: bool,
    statusCode: int,
    responseMsg: string,
    errorMsg: Option<string>,
    response: Option<P>)

  /** `response(success, statusCode, responseMsg, errorMsg = null, data = null)`. */
  function Response<P>(success: bool, statusCode: int, responseMsg: string,
                       errorMsg: Option<string> := None, data: Option<P> := None): (e: Envelope<P>)
    ensures e.success == success && e.statusCode == statusCode && e.responseMsg == responseMsg
    ensures e.errorMsg == errorMsg && e.response == data
  {
    Envelope(success, statusCode, responseMsg, errorMsg, data)
  }

  /** A handler's answer: the HTTP status and the JSON body. `res.json(body)` leaves the
      status at its default of 200; `res.status(code).json(body)` sets it. */
  datatype Reply<P> = Reply(http: int, body: Envelope<P>)

  /** `res.status(400).json(response(false, 400, msg))`. */
  function BadRequest<P>(msg: string): (r: Reply<P>)
    ensures r.http == 400 && !r.body.success && r.body.statusCode == 400
    ensures r.body.responseMsg == msg && r.body.errorMsg == None && r.body.response == None
  {
    Reply(400, Response(false, 400, msg))
  }

  /** `res.status(404).json(response(false, 404, msg))`. */
  function NotFound<P>(msg: string): (r: Reply<P>)
    ensures r.http == 404 && !r.body.success && r.body.statusCode == 404
    ensures r.body.responseMsg == msg && r.body.errorMsg == None && r.body.response == None
  {
    Reply(404, Response(false, 404, msg))
  }

  /** The `catch` of every handler: `res.status(500).json(response(false, 500, msg, err.message))`. */
  function ServerError<P>(msg: string, errMessage: string): (r: Reply<P>)
    ensures r.http == 500 && !r.body.success && r.body.statusCode == 500
    ensures r.body.responseMsg == msg && r.body.errorMsg == Some(errMessage) && r.body.response == None
  {
    Reply(500, Response(false, 500, msg, Some(errMessage)))
  }

  /** `res.json(response(true, code, msg, null, data))`: sent with the default status 200,
      whatever `code` says. */
  function Done<P>(code: int, msg: string, data: Option<P>): (r: Reply<P>)
    ensures r.http == 200 && r.body.success && r.body.statusCode == code
    ensures r.body.responseMsg == msg && r.body.errorMsg == None && r.body.response == data
  {
    Reply(200, Response(true, code, msg, None, data))
  }

  /** What every reply of the two controllers satisfies: it succeeds exactly when it goes
      out with 200; its HTTP status is its `statusCode`, except that the creation handlers
      report 201 in the body while the HTTP status stays 200; a failure carries no payload,
      and carries an `errorMsg` exactly when it is a 500. */
  predicate Coherent<P>(r: Reply<P>)
  {
    && (r.body.success <==> r.http == 200)
    && (r.http == r.body.statusCode || (r.http == 200 && r.body.statusCode == 201))
    && (!r.body.success ==> r.body.response.None? && (r.body.errorMsg.Some? <==> r.http == 500))
    && (r.body.success ==> r.body.errorMsg.None?)
  }

  /** Every reply the helpers build is coherent as long as a success reports 200 or 201. */
  lemma HelpersCoherent<P>(msg: string, errMessage: string, code: int, data: Option<P>)
    ensures Coherent(BadRequest<P>(msg)) && Coherent(NotFound<P>(msg)) && Coherent(ServerError<P>(msg, errMessage))
    ensures Coherent(Done(code, msg, data)) <==> code == 200 || code == 201
  {
  }
}
