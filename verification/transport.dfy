/**
 The part of each server's HTTP callback that decides, before and after
 dispatch, which status the caller sees. Headers, body streaming and
 `JSON.parse` itself are not modelled: the decoded body arrives as an
 `Option<Request>`, `None` meaning that parsing threw.
 */
module Transport {
  import opened Wrappers
  import opened Envelope

  /** The body written back. */
  datatype Body =
    | NoBody                     // preflight: `res.end()`
    | NotFoundBody               // `{ error: "Not found" }`
    | InvalidRequestBody         // `{ error: "Invalid request", ... }`
    | EnvelopeBody(response: Response)

  datatype HttpReply = HttpReply(status: int, body: Body)

  /** Where the request line sends a call. */
  datatype Gate = Preflight | Refuse | Admit

  /** `OPTIONS` is answered at once; only `POST /arc` reaches the dispatcher. */
  function GateOf(httpMethod: string, url: string): (g: Gate)
    ensures g == Preflight <==> httpMethod == "OPTIONS"
    ensures g == Admit <==> httpMethod == "POST" && url == "/arc"
  {
    if httpMethod == "OPTIONS" then Preflight
    else if httpMethod != "POST" || url != "/arc" then Refuse
    else Admit
  }

  /**
   The whole callback, given the dispatcher as `process`: 200 for a
   preflight, 404 off the endpoint, 400 with no envelope when the body does
   not decode or processing rejects, and otherwise 200 carrying the envelope.
   */
  function Handle(httpMethod: string, url: string, body: Option<Request>, process: Request -> Reply): (r: HttpReply)
    ensures GateOf(httpMethod, url) == Preflight ==> r == HttpReply(200, NoBody)
    ensures GateOf(httpMethod, url) == Refuse ==> r == HttpReply(404, NotFoundBody)
    ensures GateOf(httpMethod, url) == Admit && body.None? ==> r == HttpReply(400, InvalidRequestBody)
    ensures r.body.EnvelopeBody? <==>
              GateOf(httpMethod, url) == Admit && body.Some? && process(body.value).Answered?
    ensures r.body.EnvelopeBody? ==> r.status == 200 && process(body.value) == Answered(r.body.response)
    ensures GateOf(httpMethod, url) == Admit && body.Some? && process(body.value).Rejected? ==>
              r == HttpReply(400, InvalidRequestBody)
  {
    match GateOf(httpMethod, url)
    case Preflight => HttpReply(200, NoBody)
    case Refuse => HttpReply(404, NotFoundBody)
    case Admit =>
      if body.None? then HttpReply(400, InvalidRequestBody)
      else
        match process(body.value)
        case Answered(response) => HttpReply(200, EnvelopeBody(response))
        case Rejected => HttpReply(400, InvalidRequestBody)
  }
}
