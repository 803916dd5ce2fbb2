/**
 The ARC wire envelopes, the per-call handler context, and the two pieces of
 logic both servers share: folding whatever a dispatch threw into the error
 object of a response (the `catch` block), and composing the response
 envelope so that it echoes the request's identifiers.
 */
module Envelope {
  import opened Wrappers
  import Json

  /** The only protocol version either side speaks. */
  const ProtocolVersion: string := "1.0"

  /** Error codes of the public contract. */
  const MethodNotFound: int := -32601
  const InternalError: int := -32603
  const AgentNotFound: int := -41001
  const InvalidVersion: int := -45001

  /** Message used when a failure carries no truthy message of its own. */
  const InternalErrorMessage: string := "Internal error"

  /** A decoded request. `arc` and `traceId` may be missing from the body. */
  datatype Request = Request(
    arc: Option<string>,
    id: Json.Value,
    methodName: string,
    requestAgent: string,
    targetAgent: string,
    params: Json.Value,
    traceId: Option<string>)

  /** The `error` member of a response. `details` is omitted when undefined. */
  datatype ArcError = ArcError(code: Json.Value, message: Json.Value, details: Option<Json.Value>)

  /** A response envelope; `error == None` is `error: null`, `traceId == None` omits the field. */
  datatype Response = Response(
    arc: string,
    id: Json.Value,
    responseAgent: string,
    targetAgent: string,
    result: Json.Value,
    error: Option<ArcError>,
    traceId: Option<string>)

  /** What a handler sees of the request besides its `params`. */
  datatype Context = Context(
    requestId: Json.Value,
    methodName: string,
    requestAgent: string,
    targetAgent: string,
    traceId: Option<string>)

  /**
   A thrown value as the `catch` block reads it. `Nullish` is a thrown `null`
   or `undefined`, on which reading `.code` itself throws; anything else is
   read through its (possibly missing) `code`, `message` and `details`.
   */
  datatype Thrown =
    | Nullish
    | Raised(code: Option<Json.Value>, message: Option<Json.Value>, details: Option<Json.Value>)

  /** How the body of a dispatch's `try` block ended. */
  datatype Outcome = Returned(value: Json.Value) | Threw(thrown: Thrown)

  /**
   What `processRequest` settles to: a response envelope, or a rejection
   when the `catch` block itself threw.
   */
  datatype Reply = Answered(response: Response) | Rejected

  /** `...(traceId && { traceId })`: the trace id is carried only when truthy. */
  function ForwardTrace(traceId: Option<string>): (r: Option<string>)
    ensures r.Some? <==> traceId.Some? && traceId.value != ""
    ensures r.Some? ==> r == traceId
  {
    if traceId.Some? && traceId.value != "" then traceId else None
  }

  /** Forwarding a trace id that was already forwarded changes nothing. */
  lemma ForwardTraceIdempotent(traceId: Option<string>)
    ensures ForwardTrace(ForwardTrace(traceId)) == ForwardTrace(traceId)
  {
  }

  /** The context handed to a handler mirrors the request; `traceId` is passed raw, even when empty. */
  function ContextOf(req: Request): (c: Context)
    ensures c.requestId == req.id && c.methodName == req.methodName
    ensures c.requestAgent == req.requestAgent && c.targetAgent == req.targetAgent
    ensures c.traceId == req.traceId
  {
    Context(req.id, req.methodName, req.requestAgent, req.targetAgent, req.traceId)
  }

  /**
   The error mapper: `code || -32603`, `message || "Internal error"`, and
   `details` as it was. The mapped code and message are never falsy.
   */
  function ErrorOf(code: Option<Json.Value>, message: Option<Json.Value>, details: Option<Json.Value>): (e: ArcError)
    ensures Json.Truthy(e.code) && Json.Truthy(e.message)
    ensures Json.Present(code) ==> e.code == code.value
    ensures !Json.Present(code) ==> e.code == Json.Num(InternalError)
    ensures Json.Present(message) ==> e.message == message.value
    ensures !Json.Present(message) ==> e.message == Json.Str(InternalErrorMessage)
    ensures e.details == details
  {
    ArcError(Json.OrElse(code, Json.Num(InternalError)),
             Json.OrElse(message, Json.Str(InternalErrorMessage)),
             details)
  }

  /** Mapping an error that was already mapped gives it back unchanged. */
  lemma ErrorOfIdempotent(code: Option<Json.Value>, message: Option<Json.Value>, details: Option<Json.Value>)
    ensures var e := ErrorOf(code, message, details);
            ErrorOf(Some(e.code), Some(e.message), e.details) == e
  {
  }

  /** The identifiers every response echoes from its request, whichever path produced it. */
  predicate Echoes(req: Request, r: Response)
  {
    && r.arc == ProtocolVersion
    && r.id == req.id
    && r.targetAgent == req.requestAgent
    && r.traceId == ForwardTrace(req.traceId)
  }

  /** The response composer: roles are swapped and identifiers echoed. */
  function Respond(req: Request, responder: string, result: Json.Value, error: Option<ArcError>): (r: Response)
    ensures Echoes(req, r)
    ensures r.responseAgent == responder && r.result == result && r.error == error
  {
    Response(ProtocolVersion, req.id, responder, req.requestAgent, result, error, ForwardTrace(req.traceId))
  }

  /**
   Folds the outcome of a dispatch into a reply: a returned value answers
   from `servedBy` with `error: null`; a raised failure answers from
   `failedBy` with `result: null` and the mapped error; a thrown `null` or
   `undefined` makes the `catch` block throw, so the reply is a rejection.
   */
  function Conclude(req: Request, servedBy: string, failedBy: string, outcome: Outcome): (r: Reply)
    ensures r.Answered? ==> Echoes(req, r.response)
    ensures r.Rejected? <==> outcome == Threw(Nullish)
    ensures outcome.Returned? ==>
              r.Answered? && r.response.responseAgent == servedBy
              && r.response.result == outcome.value && r.response.error == None
    ensures outcome.Threw? && outcome.thrown.Raised? ==>
              var t := outcome.thrown;
              r.Answered? && r.response.responseAgent == failedBy && r.response.result == Json.Null
              && r.response.error == Some(ErrorOf(t.code, t.message, t.details))
  {
    match outcome
    case Returned(v) => Answered(Respond(req, servedBy, v, None))
    case Threw(Nullish) => Rejected
    case Threw(Raised(code, message, details)) =>
      Answered(Respond(req, failedBy, Json.Null, Some(ErrorOf(code, message, details))))
  }
}
