/**
 The client talking to each server over the endpoint. The wire carries the
 HTTP status and, for an envelope body, the envelope itself; serialising and
 parsing JSON is taken to give back what was sent.
 */
module Interop {
  import opened Wrappers
  import Json
  import Maps
  import opened Envelope
  import Transport
  import MultiAgentServer
  import ArcServer
  import ArcClient

  /** What the client reads off a server's HTTP reply. */
  function Wire(reply: Transport.HttpReply): (int, Option<Response>)
  {
    (reply.status, if reply.body.EnvelopeBody? then Some(reply.body.response) else None)
  }

  /** Posting to a single-agent server at `POST /arc`; the server reads no request header. */
  function PostTo<H>(s: ArcServer.Server<H>, invoke: (H, Json.Value, Context) -> Outcome): (seq<(string, string)>, Request) -> (int, Option<Response>)
  {
    (headers, req) => Wire(ArcServer.Serve(s, invoke, "POST", "/arc", Some(req)))
  }

  /** Posting to a multi-agent server at `POST /arc`; the server reads no request header. */
  function PostToMulti<H>(s: MultiAgentServer.Server<H>, invoke: (H, Json.Value, Context) -> Outcome): (seq<(string, string)>, Request) -> (int, Option<Response>)
  {
    (headers, req) => Wire(MultiAgentServer.Serve(s, invoke, "POST", "/arc", Some(req)))
  }

  /**
   A call to a registered method whose handler returns `v` comes back to
   the client accepted: addressed to the client, from the server's agent,
   with the client's id and trace id and the handler's value.
   */
  lemma SingleAgentSuccess<H>(s: ArcServer.Server<H>, invoke: (H, Json.Value, Context) -> Outcome,
                              c: ArcClient.Client, id: Json.Value, methodName: string, targetAgent: string,
                              params: Json.Value, traceId: Option<string>, v: Json.Value)
    requires Maps.Has(s.handlers, methodName)
    requires invoke(Maps.Get(s.handlers, methodName).value, params,
                    Context(id, methodName, c.requestAgent, targetAgent, ForwardTrace(traceId))) == Returned(v)
    ensures ArcClient.SendRequest(c, id, methodName, targetAgent, params, traceId, PostTo(s, invoke))
         == Success(Response(ProtocolVersion, id, s.agentId, c.requestAgent, v, None, ForwardTrace(traceId)))
  {
    var req := ArcClient.NewRequest(c, id, methodName, targetAgent, params, traceId);
    ForwardTraceIdempotent(traceId);
    assert ArcServer.Process(s, invoke, req).Answered?;
  }

  /** A call to a method the single-agent server lacks is rejected by the client with `-32601`. */
  lemma SingleAgentUnknownMethod<H>(s: ArcServer.Server<H>, invoke: (H, Json.Value, Context) -> Outcome,
                                    c: ArcClient.Client, id: Json.Value, methodName: string, targetAgent: string,
                                    params: Json.Value, traceId: Option<string>)
    requires !Maps.Has(s.handlers, methodName)
    ensures ArcClient.SendRequest(c, id, methodName, targetAgent, params, traceId, PostTo(s, invoke))
         == Failure(ArcClient.RemoteError(Json.Num(MethodNotFound), Json.Str("Method not found: " + methodName)))
  {
    var req := ArcClient.NewRequest(c, id, methodName, targetAgent, params, traceId);
    assert ArcServer.Process(s, invoke, req).Answered?;
  }

  /** A handler that throws `null` or `undefined` reaches the client as an HTTP 400, not as an ARC error. */
  lemma SingleAgentNullishThrow<H>(s: ArcServer.Server<H>, invoke: (H, Json.Value, Context) -> Outcome,
                                   c: ArcClient.Client, id: Json.Value, methodName: string, targetAgent: string,
                                   params: Json.Value, traceId: Option<string>)
    requires Maps.Has(s.handlers, methodName)
    requires invoke(Maps.Get(s.handlers, methodName).value, params,
                    Context(id, methodName, c.requestAgent, targetAgent, ForwardTrace(traceId))) == Threw(Nullish)
    ensures ArcClient.SendRequest(c, id, methodName, targetAgent, params, traceId, PostTo(s, invoke))
         == Failure(ArcClient.HttpFailure(400))
  {
    var req := ArcClient.NewRequest(c, id, methodName, targetAgent, params, traceId);
    assert ArcServer.Process(s, invoke, req).Rejected?;
  }

  /** A call to an agent the multi-agent server does not host is rejected by the client with `-41001`. */
  lemma MultiAgentUnknownAgent<H>(s: MultiAgentServer.Server<H>, invoke: (H, Json.Value, Context) -> Outcome,
                                  c: ArcClient.Client, id: Json.Value, methodName: string, targetAgent: string,
                                  params: Json.Value, traceId: Option<string>)
    requires !Maps.Has(s.agents, targetAgent)
    ensures ArcClient.SendRequest(c, id, methodName, targetAgent, params, traceId, PostToMulti(s, invoke))
         == Failure(ArcClient.RemoteError(Json.Num(AgentNotFound), Json.Str("Agent not found: " + targetAgent)))
  {
    var req := ArcClient.NewRequest(c, id, methodName, targetAgent, params, traceId);
    assert MultiAgentServer.Process(s, invoke, req).Answered?;
  }

  /**
   A routed call whose handler returns `v` comes back accepted from the
   agent that served it, addressed to the client.
   */
  lemma MultiAgentSuccess<H>(s: MultiAgentServer.Server<H>, invoke: (H, Json.Value, Context) -> Outcome,
                             c: ArcClient.Client, id: Json.Value, methodName: string, targetAgent: string,
                             params: Json.Value, traceId: Option<string>, v: Json.Value)
    requires MultiAgentServer.Lookup(s.agents, targetAgent, methodName).Some?
    requires invoke(MultiAgentServer.Lookup(s.agents, targetAgent, methodName).value, params,
                    Context(id, methodName, c.requestAgent, targetAgent, ForwardTrace(traceId))) == Returned(v)
    ensures ArcClient.SendRequest(c, id, methodName, targetAgent, params, traceId, PostToMulti(s, invoke))
         == Success(Response(ProtocolVersion, id, targetAgent, c.requestAgent, v, None, ForwardTrace(traceId)))
  {
    var req := ArcClient.NewRequest(c, id, methodName, targetAgent, params, traceId);
    ForwardTraceIdempotent(traceId);
    assert MultiAgentServer.Process(s, invoke, req).Answered?;
  }

  /**
   The "exactly one of result and error is null" rule of the envelope is not
   kept by the code: a handler that returns `null` yields a response with
   both null.
   */
  lemma NullResultLeavesBothNull(req: Request)
    requires req.arc == Some(ProtocolVersion)
    ensures var s := ArcServer.RegisterHandler(ArcServer.NewServer<int>("agent"), req.methodName, 0);
            var reply := ArcServer.Process(s, (h: int, p: Json.Value, ctx: Context) => Returned(Json.Null), req);
            reply.Answered? && reply.response.result == Json.Null && reply.response.error == None
  {
  }
}
