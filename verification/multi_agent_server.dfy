/**
 `MultiAgentServer`: many agents behind one endpoint, routed by
 `targetAgent` and then by `method` through a two-level table. It performs
 no protocol-version check, and every failure is answered in the name of
 the server, not of the agent.
 */
module MultiAgentServer {
  import opened Wrappers
  import Json
  import Maps
  import opened Envelope
  import Transport

  /** Agent id to (method name to handler), both levels in registration order. */
  type Routes<H> = Maps.OrderedMap<Maps.OrderedMap<H>>

  datatype Server<H> = Server(serverId: string, agents: Routes<H>)

  /** A server as constructed: no agents yet. */
  function NewServer<H>(serverId: string): (s: Server<H>)
    ensures s.serverId == serverId
    ensures Maps.Keys(s.agents) == []
  {
    Server(serverId, Maps.Empty())
  }

  /** The handler routed to by `(agent, method)`, if any. */
  function Lookup<H>(routes: Routes<H>, agent: string, methodName: string): Option<H>
  {
    match Maps.Get(routes, agent)
    case None => None
    case Some(methods) => Maps.Get(methods, methodName)
  }

  /** Every registered agent has at least one method. */
  ghost predicate NoIdleAgents<H>(routes: Routes<H>)
  {
    forall a | Maps.Has(routes, a) :: Maps.Keys(Maps.Get(routes, a).value) != []
  }

  /** No agent is listed twice, and no agent lists a method twice. */
  ghost predicate WellKeyed<H>(routes: Routes<H>)
  {
    && Maps.Distinct(Maps.Keys(routes))
    && forall a | Maps.Has(routes, a) :: Maps.Distinct(Maps.Keys(Maps.Get(routes, a).value))
  }

  /**
   `registerAgent(agentId, method, handler)`: afterwards the pair routes to
   `handler`, every other pair routes as before, and agents and methods that
   were already listed keep their place.
   */
  function RegisterAgent<H>(s: Server<H>, agent: string, methodName: string, handler: H): (s': Server<H>)
    ensures s'.serverId == s.serverId
    ensures Lookup(s'.agents, agent, methodName) == Some(handler)
    ensures forall a, m | a != agent || m != methodName :: Lookup(s'.agents, a, m) == Lookup(s.agents, a, m)
    ensures Maps.Keys(s.agents) <= Maps.Keys(s'.agents)
    ensures forall a :: Maps.Has(s'.agents, a) <==> a == agent || Maps.Has(s.agents, a)
    ensures forall a | a != agent :: Maps.Get(s'.agents, a) == Maps.Get(s.agents, a)
    ensures Maps.Has(s.agents, agent) ==>
              Maps.Keys(Maps.Get(s.agents, agent).value) <= Maps.Keys(Maps.Get(s'.agents, agent).value)
    ensures NoIdleAgents(s.agents) ==> NoIdleAgents(s'.agents)
    ensures WellKeyed(s.agents) ==> WellKeyed(s'.agents)
  {
    var methods := Maps.Get(s.agents, agent).GetOr(Maps.Empty());
    s.(agents := Maps.Set(s.agents, agent, Maps.Set(methods, methodName, handler)))
  }

  /** Registering the same pair again replaces the handler and changes nothing else. */
  lemma ReRegisterOverrides<H>(s: Server<H>, agent: string, methodName: string, earlier: H, later: H)
    ensures RegisterAgent(RegisterAgent(s, agent, methodName, earlier), agent, methodName, later)
         == RegisterAgent(s, agent, methodName, later)
  {
    var methods := Maps.Get(s.agents, agent).GetOr(Maps.Empty());
    Maps.SetOverrides(methods, methodName, earlier, later);
    Maps.SetOverrides(s.agents, agent, Maps.Set(methods, methodName, earlier), Maps.Set(methods, methodName, later));
  }

  /** One `registerAgent` call. */
  datatype Registration<H> = Registration(agent: string, methodName: string, handler: H)

  /** The server after the registrations in `regs`, in order. */
  function RegisterAll<H>(s: Server<H>, regs: seq<Registration<H>>): Server<H>
    decreases |regs|
  {
    if |regs| == 0 then s
    else
      var last := regs[|regs| - 1];
      RegisterAgent(RegisterAll(s, regs[..|regs| - 1]), last.agent, last.methodName, last.handler)
  }

  /** Reference definition: the handler of the last registration for `(agent, method)` in `regs`. */
  function LastRegistered<H>(regs: seq<Registration<H>>, agent: string, methodName: string): Option<H>
    decreases |regs|
  {
    if |regs| == 0 then None
    else if regs[|regs| - 1].agent == agent && regs[|regs| - 1].methodName == methodName then Some(regs[|regs| - 1].handler)
    else LastRegistered(regs[..|regs| - 1], agent, methodName)
  }

  /**
   Last write wins: after a run of registrations, a pair routes to the
   handler it was registered with last, or as before if it was never
   registered in the run.
   */
  lemma {:induction false} RegisterAllLastWriteWins<H>(s: Server<H>, regs: seq<Registration<H>>, agent: string, methodName: string)
    ensures Lookup(RegisterAll(s, regs).agents, agent, methodName)
         == if LastRegistered(regs, agent, methodName).Some? then LastRegistered(regs, agent, methodName)
            else Lookup(s.agents, agent, methodName)
    decreases |regs|
  {
    if |regs| > 0 {
      RegisterAllLastWriteWins(s, regs[..|regs| - 1], agent, methodName);
    }
  }

  /** Reference definition: the agents named anywhere in `regs`. */
  function AgentsNamed<H>(regs: seq<Registration<H>>): set<string>
    decreases |regs|
  {
    if |regs| == 0 then {} else AgentsNamed(regs[..|regs| - 1]) + {regs[|regs| - 1].agent}
  }

  /** The agents known after a run of registrations are the earlier ones plus those the run names. */
  lemma {:induction false} RegisterAllAgents<H>(s: Server<H>, regs: seq<Registration<H>>, agent: string)
    ensures Maps.Has(RegisterAll(s, regs).agents, agent) <==> Maps.Has(s.agents, agent) || agent in AgentsNamed(regs)
    decreases |regs|
  {
    if |regs| > 0 {
      RegisterAllAgents(s, regs[..|regs| - 1], agent);
    }
  }

  /** Registration never leaves an agent without methods, nor lists an agent or a method twice. */
  lemma {:induction false} RegisterAllKeepsInvariants<H>(s: Server<H>, regs: seq<Registration<H>>)
    ensures NoIdleAgents(s.agents) ==> NoIdleAgents(RegisterAll(s, regs).agents)
    ensures WellKeyed(s.agents) ==> WellKeyed(RegisterAll(s, regs).agents)
    decreases |regs|
  {
    if |regs| > 0 {
      RegisterAllKeepsInvariants(s, regs[..|regs| - 1]);
    }
  }

  /** The thrown object for an unknown agent; it lists every registered agent. */
  function UnknownAgent(agent: string, available: seq<string>): Thrown
  {
    Raised(Some(Json.Num(AgentNotFound)),
           Some(Json.Str("Agent not found: " + agent)),
           Some(Json.Obj([("requestedAgent", Json.Str(agent)),
                          ("availableAgents", Json.Strings(available))])))
  }

  /** The thrown object for a known agent lacking the method; it lists that agent's methods. */
  function UnknownMethod(methodName: string, agent: string, supported: seq<string>): Thrown
  {
    Raised(Some(Json.Num(MethodNotFound)),
           Some(Json.Str("Method " + methodName + " not found for agent " + agent)),
           Some(Json.Obj([("supportedMethods", Json.Strings(supported))])))
  }

  /**
   The agent check, then the method check: a miss is the object the source
   throws, a hit is the registered handler.
   */
  function Resolve<H>(routes: Routes<H>, agent: string, methodName: string): (r: Result<H, Thrown>)
    ensures r.Success? <==> Lookup(routes, agent, methodName).Some?
    ensures r.Success? ==> Lookup(routes, agent, methodName) == Some(r.value)
    ensures !Maps.Has(routes, agent) ==> r == Failure(UnknownAgent(agent, Maps.Keys(routes)))
    ensures Maps.Has(routes, agent) && !Maps.Has(Maps.Get(routes, agent).value, methodName) ==>
              r == Failure(UnknownMethod(methodName, agent, Maps.Keys(Maps.Get(routes, agent).value)))
  {
    match Maps.Get(routes, agent)
    case None => Failure(UnknownAgent(agent, Maps.Keys(routes)))
    case Some(methods) =>
      match Maps.Get(methods, methodName)
      case None => Failure(UnknownMethod(methodName, agent, Maps.Keys(methods)))
      case Some(handler) => Success(handler)
  }

  /** The `try` block of `processRequest`: route, then run the handler on the request's params and context. */
  function Execute<H>(routes: Routes<H>, invoke: (H, Json.Value, Context) -> Outcome, req: Request): Outcome
  {
    match Resolve(routes, req.targetAgent, req.methodName)
    case Failure(thrown) => Threw(thrown)
    case Success(handler) => invoke(handler, req.params, ContextOf(req))
  }

  /**
   `processRequest`. Every answer echoes the request; routing misses are
   typed errors carrying discovery details; the handler's value or failure
   is passed through; failures are answered by the server itself.
   */
  function Process<H>(s: Server<H>, invoke: (H, Json.Value, Context) -> Outcome, req: Request): (r: Reply)
    ensures r.Answered? ==> Echoes(req, r.response)
    // unknown agent: -41001 listing exactly the registered agents, whatever the method
    ensures !Maps.Has(s.agents, req.targetAgent) ==>
              && r.Answered? && r.response.responseAgent == s.serverId && r.response.result == Json.Null
              && r.response.error.Some?
              && r.response.error.value.code == Json.Num(AgentNotFound)
              && Json.Field(r.response.error.value.details, "requestedAgent") == Some(Json.Str(req.targetAgent))
              && Json.AsStrings(Json.Field(r.response.error.value.details, "availableAgents")) == Some(Maps.Keys(s.agents))
    // known agent, unknown method: -32601 listing exactly that agent's methods
    ensures Maps.Has(s.agents, req.targetAgent) && !Maps.Has(Maps.Get(s.agents, req.targetAgent).value, req.methodName) ==>
              && r.Answered? && r.response.responseAgent == s.serverId && r.response.result == Json.Null
              && r.response.error.Some?
              && r.response.error.value.code == Json.Num(MethodNotFound)
              && Json.AsStrings(Json.Field(r.response.error.value.details, "supportedMethods"))
                 == Some(Maps.Keys(Maps.Get(s.agents, req.targetAgent).value))
    // routed: the handler's outcome decides the reply
    ensures Lookup(s.agents, req.targetAgent, req.methodName).Some? ==>
              var outcome := invoke(Lookup(s.agents, req.targetAgent, req.methodName).value, req.params, ContextOf(req));
              && (outcome.Returned? ==>
                    r.Answered? && r.response.responseAgent == req.targetAgent
                    && r.response.result == outcome.value && r.response.error == None)
              && (outcome.Threw? && outcome.thrown.Raised? ==>
                    r.Answered? && r.response.responseAgent == s.serverId && r.response.result == Json.Null
                    && r.response.error == Some(ErrorOf(outcome.thrown.code, outcome.thrown.message, outcome.thrown.details)))
              && (r.Rejected? <==> outcome == Threw(Nullish))
  {
    var reply := Conclude(req, req.targetAgent, s.serverId, Execute(s.agents, invoke, req));
    if !Maps.Has(s.agents, req.targetAgent) then
      var members := [("requestedAgent", Json.Str(req.targetAgent)),
                      ("availableAgents", Json.Strings(Maps.Keys(s.agents)))];
      assert members[..1] == [members[0]];
      Json.StringsRoundTrip(Maps.Keys(s.agents));
      reply
    else if !Maps.Has(Maps.Get(s.agents, req.targetAgent).value, req.methodName) then
      Json.StringsRoundTrip(Maps.Keys(Maps.Get(s.agents, req.targetAgent).value));
      reply
    else reply
  }

  /** A routing miss never reaches a handler: the reply is the same whatever the handlers would do. */
  lemma MissIgnoresHandlers<H>(s: Server<H>, invoke1: (H, Json.Value, Context) -> Outcome,
                               invoke2: (H, Json.Value, Context) -> Outcome, req: Request)
    requires Lookup(s.agents, req.targetAgent, req.methodName).None?
    ensures Process(s, invoke1, req) == Process(s, invoke2, req)
  {
  }

  /**
   A hit consults the handlers at exactly one point: the routed handler, on
   the request's params, with the request's context.
   */
  lemma HitConsultsRoutedHandler<H>(s: Server<H>, invoke1: (H, Json.Value, Context) -> Outcome,
                                    invoke2: (H, Json.Value, Context) -> Outcome, req: Request)
    requires Lookup(s.agents, req.targetAgent, req.methodName).Some?
    requires var h := Lookup(s.agents, req.targetAgent, req.methodName).value;
             invoke1(h, req.params, ContextOf(req)) == invoke2(h, req.params, ContextOf(req))
    ensures Process(s, invoke1, req) == Process(s, invoke2, req)
  {
  }

  /** No version check: the reply does not depend on the request's `arc` field. */
  lemma VersionIgnored<H>(s: Server<H>, invoke: (H, Json.Value, Context) -> Outcome, req: Request, arc: Option<string>)
    ensures Process(s, invoke, req.(arc := arc)) == Process(s, invoke, req)
  {
    assert ContextOf(req.(arc := arc)) == ContextOf(req);
  }

  /** The HTTP callback of `start`, dispatching admitted bodies through `Process`. */
  function Serve<H>(s: Server<H>, invoke: (H, Json.Value, Context) -> Outcome,
                    httpMethod: string, url: string, body: Option<Request>): (r: Transport.HttpReply)
    ensures httpMethod == "OPTIONS" ==> r.status == 200 && r.body == Transport.NoBody
    ensures httpMethod != "OPTIONS" && (httpMethod != "POST" || url != "/arc") ==> r.status == 404
    ensures httpMethod == "POST" && url == "/arc" && body.None? ==> r.status == 400 && !r.body.EnvelopeBody?
    ensures r.body.EnvelopeBody? ==> r.status == 200 && body.Some? && Process(s, invoke, body.value) == Answered(r.body.response)
    ensures httpMethod == "POST" && url == "/arc" && body.Some? ==>
              (r.status == 200 <==> Process(s, invoke, body.value).Answered?)
  {
    Transport.Handle(httpMethod, url, body, req => Process(s, invoke, req))
  }
}
