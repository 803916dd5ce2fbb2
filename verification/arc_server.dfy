/**
 `ARCServer`: one agent behind the endpoint, with a flat method table. Unlike
 the multi-agent server it gates every request on the protocol version
 before looking the method up, and it answers every outcome in its own name.
 */
module ArcServer {
  import opened Wrappers
  import Json
  import Maps
  import opened Envelope
  import Transport

  datatype Server<H> = Server(agentId: string, handlers: Maps.OrderedMap<H>)

  /** A server as constructed: no handlers yet. */
  function NewServer<H>(agentId: string): (s: Server<H>)
    ensures s.agentId == agentId
    ensures Maps.Keys(s.handlers) == []
  {
    Server(agentId, Maps.Empty())
  }

  /**
   `registerHandler(method, handler)`: later lookups of the method find
   `handler`, every other method keeps its handler, and methods already
   listed keep their place.
   */
  function RegisterHandler<H>(s: Server<H>, methodName: string, handler: H): (s': Server<H>)
    ensures s'.agentId == s.agentId
    ensures Maps.Get(s'.handlers, methodName) == Some(handler)
    ensures forall m | m != methodName :: Maps.Get(s'.handlers, m) == Maps.Get(s.handlers, m)
    ensures Maps.Keys(s.handlers) <= Maps.Keys(s'.handlers)
    ensures Maps.Distinct(Maps.Keys(s.handlers)) ==> Maps.Distinct(Maps.Keys(s'.handlers))
  {
    s.(handlers := Maps.Set(s.handlers, methodName, handler))
  }

  /** One `registerHandler` call. */
  datatype Registration<H> = Registration(methodName: string, handler: H)

  /** The server after the registrations in `regs`, in order. */
  function RegisterAll<H>(s: Server<H>, regs: seq<Registration<H>>): Server<H>
    decreases |regs|
  {
    if |regs| == 0 then s
    else
      var last := regs[|regs| - 1];
      RegisterHandler(RegisterAll(s, regs[..|regs| - 1]), last.methodName, last.handler)
  }

  /** Reference definition: the handler of the last registration of `methodName` in `regs`. */
  function LastRegistered<H>(regs: seq<Registration<H>>, methodName: string): Option<H>
    decreases |regs|
  {
    if |regs| == 0 then None
    else if regs[|regs| - 1].methodName == methodName then Some(regs[|regs| - 1].handler)
    else LastRegistered(regs[..|regs| - 1], methodName)
  }

  /** Last write wins over any run of registrations. */
  lemma {:induction false} RegisterAllLastWriteWins<H>(s: Server<H>, regs: seq<Registration<H>>, methodName: string)
    ensures Maps.Get(RegisterAll(s, regs).handlers, methodName)
         == if LastRegistered(regs, methodName).Some? then LastRegistered(regs, methodName)
            else Maps.Get(s.handlers, methodName)
    decreases |regs|
  {
    if |regs| > 0 {
      RegisterAllLastWriteWins(s, regs[..|regs| - 1], methodName);
    }
  }

  /** Registration never lists a method twice. */
  lemma {:induction false} RegisterAllKeepsDistinct<H>(s: Server<H>, regs: seq<Registration<H>>)
    ensures Maps.Distinct(Maps.Keys(s.handlers)) ==> Maps.Distinct(Maps.Keys(RegisterAll(s, regs).handlers))
    decreases |regs|
  {
    if |regs| > 0 {
      RegisterAllKeepsDistinct(s, regs[..|regs| - 1]);
    }
  }

  /** `${request.arc}` in a template string: a missing field prints as `undefined`. */
  function VersionText(arc: Option<string>): string
  {
    match arc
    case None => "undefined"
    case Some(v) => v
  }

  /** The thrown object for a missing or unsupported protocol version. */
  function BadVersion(arc: Option<string>): Thrown
  {
    Raised(Some(Json.Num(InvalidVersion)),
           Some(Json.Str("Invalid ARC version: " + VersionText(arc))),
           Some(Json.Obj([("supportedVersion", Json.Str(ProtocolVersion))])))
  }

  /** The thrown object for an unregistered method; it lists every registered method. */
  function UnknownMethod(methodName: string, supported: seq<string>): Thrown
  {
    Raised(Some(Json.Num(MethodNotFound)),
           Some(Json.Str("Method not found: " + methodName)),
           Some(Json.Obj([("method", Json.Str(methodName)),
                          ("supportedMethods", Json.Strings(supported))])))
  }

  /** The `try` block of `processRequest`: version gate, then method lookup, then the handler. */
  function Execute<H>(s: Server<H>, invoke: (H, Json.Value, Context) -> Outcome, req: Request): Outcome
  {
    if req.arc != Some(ProtocolVersion) then Threw(BadVersion(req.arc))
    else
      match Maps.Get(s.handlers, req.methodName)
      case None => Threw(UnknownMethod(req.methodName, Maps.Keys(s.handlers)))
      case Some(handler) => invoke(handler, req.params, ContextOf(req))
  }

  /**
   `processRequest`. Every answer echoes the request and comes from the
   server's own agent id; a bad version wins over everything else; an
   unknown method lists exactly the registered methods; otherwise the
   handler's value or failure is passed through.
   */
  function Process<H>(s: Server<H>, invoke: (H, Json.Value, Context) -> Outcome, req: Request): (r: Reply)
    ensures r.Answered? ==> Echoes(req, r.response) && r.response.responseAgent == s.agentId
    // version gate, whatever the method
    ensures req.arc != Some(ProtocolVersion) ==>
              && r.Answered? && r.response.result == Json.Null && r.response.error.Some?
              && r.response.error.value.code == Json.Num(InvalidVersion)
              && Json.Field(r.response.error.value.details, "supportedVersion") == Some(Json.Str(ProtocolVersion))
    // right version, unknown method
    ensures req.arc == Some(ProtocolVersion) && !Maps.Has(s.handlers, req.methodName) ==>
              && r.Answered? && r.response.result == Json.Null && r.response.error.Some?
              && r.response.error.value.code == Json.Num(MethodNotFound)
              && Json.Field(r.response.error.value.details, "method") == Some(Json.Str(req.methodName))
              && Json.AsStrings(Json.Field(r.response.error.value.details, "supportedMethods")) == Some(Maps.Keys(s.handlers))
    // right version, registered method: the handler's outcome decides the reply
    ensures req.arc == Some(ProtocolVersion) && Maps.Has(s.handlers, req.methodName) ==>
              var outcome := invoke(Maps.Get(s.handlers, req.methodName).value, req.params, ContextOf(req));
              && (outcome.Returned? ==>
                    r.Answered? && r.response.result == outcome.value && r.response.error == None)
              && (outcome.Threw? && outcome.thrown.Raised? ==>
                    r.Answered? && r.response.result == Json.Null
                    && r.response.error == Some(ErrorOf(outcome.thrown.code, outcome.thrown.message, outcome.thrown.details)))
              && (r.Rejected? <==> outcome == Threw(Nullish))
  {
    var reply := Conclude(req, s.agentId, s.agentId, Execute(s, invoke, req));
    if req.arc == Some(ProtocolVersion) && !Maps.Has(s.handlers, req.methodName) then
      var members := [("method", Json.Str(req.methodName)),
                      ("supportedMethods", Json.Strings(Maps.Keys(s.handlers)))];
      assert members[..1] == [members[0]];
      Json.StringsRoundTrip(Maps.Keys(s.handlers));
      reply
    else reply
  }

  /** The version gate never reaches a handler: the reply is the same whatever the handlers would do. */
  lemma BadVersionIgnoresHandlers<H>(s: Server<H>, invoke1: (H, Json.Value, Context) -> Outcome,
                                     invoke2: (H, Json.Value, Context) -> Outcome, req: Request)
    requires req.arc != Some(ProtocolVersion)
    ensures Process(s, invoke1, req) == Process(s, invoke2, req)
  {
  }

  /** The version gate does not look at the method table either: any two servers with the same id reply alike. */
  lemma BadVersionIgnoresTable<H>(s1: Server<H>, s2: Server<H>, invoke: (H, Json.Value, Context) -> Outcome, req: Request)
    requires req.arc != Some(ProtocolVersion) && s1.agentId == s2.agentId
    ensures Process(s1, invoke, req) == Process(s2, invoke, req)
  {
  }

  /**
   A registered method consults the handlers at exactly one point: its
   handler, on the request's params, with the request's context.
   */
  lemma HitConsultsRoutedHandler<H>(s: Server<H>, invoke1: (H, Json.Value, Context) -> Outcome,
                                    invoke2: (H, Json.Value, Context) -> Outcome, req: Request)
    requires req.arc == Some(ProtocolVersion) && Maps.Has(s.handlers, req.methodName)
    requires var h := Maps.Get(s.handlers, req.methodName).value;
             invoke1(h, req.params, ContextOf(req)) == invoke2(h, req.params, ContextOf(req))
    ensures Process(s, invoke1, req) == Process(s, invoke2, req)
  {
  }

  /** The HTTP callback of `start`, dispatching admitted bodies through `Process`. */
  function Serve<H>(s: Server<H>, invoke: (H, Json.Value, Context) -> Outcome,
                    httpMethod: string, url: string, body: Option<Request>): (r: Transport.HttpReply)
    ensures httpMethod == "OPTIONS" ==> r.status == 200 && r.body == Transport.NoBody
    ensures httpMethod != "OPTIONS" && (httpMethod != "POST" || url != "/arc") ==> r.status == 404
    ensures httpMethod == "POST" && url == "/arc" && body.None? ==> r.status == 400 && !r.body.EnvelopeBody?
    ensures r.body.EnvelopeBody? ==> r.status == 200 && body.Some? && Process(s, invoke, body.value) == Answered(r.body.response)
    ensures httpMethod == "POST" && url == "/arc" && body.Some? ==>
              (r.status == 200 <==> Process(s, invoke, body.value).Answered?)
  {
    Transport.Handle(httpMethod, url, body, req => Process(s, invoke, req))
  }
}
