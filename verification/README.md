# ARC request dispatch, modelled in Dafny

ARC is a stateless RPC protocol. Requests are addressed to named *agents*
that expose named *methods*, all behind one HTTP endpoint. This project
models three TypeScript programs that make up the request-dispatch core:

- the **multi-agent server** (`MultiAgentServer`). It routes on
  `targetAgent` and then on `method` through a two-level table. Routing
  misses become typed errors that carry discovery details: `-41001` lists
  the available agents, `-32601` lists the agent's supported methods.
- the **single-agent server** (`ARCServer`). It has a flat method table. It
  checks the protocol version (`-45001`) before it looks up the method, and
  it always answers as its own agent.
- the **client** (`ARCClient`). It builds request envelopes, fixes the
  `params` shape of each convenience call, and decides whether a reply is
  accepted.

Module layout:

| file | module | what it holds |
|---|---|---|
| `wrappers.dfy` | `Wrappers` | `Option` (JavaScript `undefined` is `None`) and `Result` |
| `json.dfy` | `Json` | decoded JSON values, JavaScript truthiness, property access, string arrays |
| `maps.dfy` | `Maps` | JavaScript's `Map` keyed by strings: a finite map that keeps insertion order |
| `envelope.dfy` | `Envelope` | request, response, context and error envelopes; error codes; the error mapper and response composer that both servers share |
| `transport.dfy` | `Transport` | the request-line gate and the HTTP status of each outcome |
| `multi_agent_server.dfy` | `MultiAgentServer` | two-level registration, routing and `processRequest` |
| `arc_server.dfy` | `ArcServer` | flat registration, version gate and `processRequest` |
| `arc_client.dfy` | `ArcClient` | envelope builder, headers, reply acceptance, convenience calls |
| `interop.dfy` | `Interop` | the client calling each server end to end |

Handlers are opaque values of a type parameter `H`. Running one is the
parameter `invoke: (H, Json.Value, Context) -> Outcome`. Its result is
`Returned(value)` or `Threw(thrown)`, and a thrown value is `Nullish` or
`Raised(code?, message?, details?)`. Routing misses are modelled as the
objects the source throws. They go through the same `catch` fold as handler
failures, so `code || -32603` and `message || "Internal error"` apply to
them too. The wire field `method` is named `methodName`, because `method`
is a Dafny keyword.

Where the code differs from the protocol's design description, the model
follows the code:

- An empty-string `traceId` is dropped from responses and client requests,
  because the code tests it for truthiness. The handler's context still
  receives it unchanged.
- A handler that returns `null` produces a response whose `result` and
  `error` are both `null` (`Interop.NullResultLeavesBothNull`).
- The multi-agent server never checks the protocol version
  (`MultiAgentServer.VersionIgnored`).
- The multi-agent server answers every failure as `serverId`, handler
  failures included. The single-agent server answers every outcome as its
  own `agentId`.
- A handler that throws `null` or `undefined` does not get an error
  envelope. In the `catch` block, reading `error.code` throws a `TypeError`.
  `processRequest` therefore rejects and the HTTP layer answers 400
  (`Reply.Rejected`, `Interop.SingleAgentNullishThrow`).

## Model

| member | source | states |
|---|---|---|
| `Json.StringsRoundTrip` | examples/typescript/multi-agent-server.ts:67 | a list of ids written with `Array.from` reads back as the same list, in the same order |
| `Maps.KeysOfLists` | examples/typescript/multi-agent-server.ts:67 | `Array.from(m.keys())` holds, at each position, the key of the entry at that position |
| `Maps.Set` | examples/typescript/server-basic.ts:68 | `Map.set` binds the key to the new value and leaves every other binding alone; an existing key keeps its place, a new key is appended last, and a map that lists no key twice still lists none twice |
| `Maps.DistinctMeansOnce` | examples/typescript/multi-agent-server.ts:79 | the recursive "no key twice" predicate holds exactly when any two positions of the key list hold different keys |
| `Maps.SetOverrides` | examples/typescript/server-basic.ts:67-70 | setting a key twice gives the same map as setting it once to the later value |
| `Envelope.ForwardTrace` | examples/typescript/multi-agent-server.ts:101 | `traceId` is carried exactly when the request's value is present and non-empty, and then it is that value |
| `Envelope.ForwardTraceIdempotent` | examples/typescript/client-basic.ts:64 | forwarding a trace id that was already forwarded, first by the client and then by a server, changes nothing |
| `Envelope.ContextOf` | examples/typescript/server-basic.ts:76-82 | the handler context carries the request's id, method, both agents and its raw `traceId` |
| `Envelope.ErrorOf` | examples/typescript/server-basic.ts:133-137 | the mapped code and message are always truthy; a truthy thrown code or message is kept, and a falsy or missing one becomes `-32603` or `"Internal error"`; `details` passes through unchanged |
| `Envelope.ErrorOfIdempotent` | examples/typescript/multi-agent-server.ts:110-114 | mapping an already-mapped error gives it back unchanged |
| `Envelope.Respond` | examples/typescript/server-basic.ts:111-118 | every response has `arc` "1.0", the request's `id`, `targetAgent` equal to the request's `requestAgent`, and the forwarded trace id |
| `Envelope.Conclude` | examples/typescript/multi-agent-server.ts:94-116 | a returned value is answered by the serving agent with `error` null; a raised failure is answered by the failing party with `result` null and the mapped error; a thrown null or undefined, and nothing else, rejects |
| `Transport.GateOf` | examples/typescript/multi-agent-server.ts:129-139 | `OPTIONS` is a preflight; only `POST /arc` is admitted; anything else is refused |
| `Transport.Handle` | examples/typescript/server-basic.ts:158-191 | preflight gets 200; refused calls get 404; an undecodable body or a rejected dispatch gets 400 with no envelope; an answered dispatch gets 200 with its envelope, and only then is an envelope sent |
| `MultiAgentServer.NewServer` | examples/typescript/multi-agent-server.ts:37-41 | a new server lists no agents |
| `MultiAgentServer.RegisterAgent` | examples/typescript/multi-agent-server.ts:46-53 | afterwards `(agent, method)` routes to the new handler and every other pair routes as before; agents already listed keep their order; only `agent` can be added; every other agent's method table is untouched, and the registered agent's existing methods keep their order (so `supportedMethods` only grows at the end); no agent is left without methods, and no agent or method is listed twice |
| `MultiAgentServer.ReRegisterOverrides` | examples/typescript/multi-agent-server.ts:51 | registering the same pair twice gives the same table as registering it once with the later handler |
| `MultiAgentServer.RegisterAllLastWriteWins` | examples/typescript/multi-agent-server.ts:46-53 | after any run of registrations, a pair routes to the handler it was registered with last (a reference definition over the log), or as before if the run does not register it |
| `MultiAgentServer.RegisterAllAgents` | examples/typescript/multi-agent-server.ts:47-49 | after a run of registrations, the known agents are exactly the earlier ones plus the agents the run names (a reference definition over the log) |
| `MultiAgentServer.RegisterAllKeepsInvariants` | examples/typescript/multi-agent-server.ts:46-51 | no run of registrations produces an agent without methods, or lists an agent or a method twice; so `availableAgents` and `supportedMethods` name each entry once |
| `MultiAgentServer.Resolve` | examples/typescript/multi-agent-server.ts:61-85 | a hit exactly when the pair is registered, yielding its handler; an unknown agent gives the `-41001` object, whatever the method; a known agent without the method gives the `-32601` object listing that agent's methods |
| `MultiAgentServer.Process` | examples/typescript/multi-agent-server.ts:58-118 | every answer echoes the request. Unknown agent: `-41001` from `serverId`, with `requestedAgent` set and `availableAgents` equal to the registered agents, each once, in registration order. Known agent, unknown method: `-32601`, with `supportedMethods` equal to that agent's methods. Routed success: answered by `targetAgent` with the handler's value and `error` null. Routed failure: answered by `serverId` with `result` null and the mapped error. Rejects exactly when the handler throws null or undefined |
| `MultiAgentServer.MissIgnoresHandlers` | examples/typescript/multi-agent-server.ts:61-82 | when routing misses, no handler is consulted: the reply is the same under any handler behaviour |
| `MultiAgentServer.HitConsultsRoutedHandler` | examples/typescript/multi-agent-server.ts:85-92 | when routing hits, the reply depends on the handlers only through the routed handler, applied to the request's params and context |
| `MultiAgentServer.VersionIgnored` | examples/typescript/multi-agent-server.ts:58-92 | the reply does not depend on the request's `arc` field |
| `MultiAgentServer.Serve` | examples/typescript/multi-agent-server.ts:123-155 | `OPTIONS` gets 200; anything other than `POST /arc` gets 404; an undecodable body gets 400; an admitted body gets 200 exactly when it is answered, and then the envelope is `Process`'s answer |
| `ArcServer.NewServer` | examples/typescript/server-basic.ts:58-62 | a new server lists no methods |
| `ArcServer.RegisterHandler` | examples/typescript/server-basic.ts:67-70 | later lookups of the method find the new handler; other methods keep their handlers; methods already listed keep their order, and none is listed twice |
| `ArcServer.RegisterAllLastWriteWins` | examples/typescript/server-basic.ts:67-70 | after any run of registrations, a method has the handler it was registered with last (a reference definition over the log), or the one it had before |
| `ArcServer.RegisterAllKeepsDistinct` | examples/typescript/server-basic.ts:102 | no run of registrations lists a method twice, so `supportedMethods` names each method once |
| `ArcServer.Process` | examples/typescript/server-basic.ts:75-146 | every answer echoes the request and comes from `agentId`. A missing or wrong `arc` gives `-45001` with `supportedVersion` "1.0", whatever the method. Right version, unknown method: `-32601`, with `method` set and `supportedMethods` equal to the registered methods. Otherwise the handler's value or mapped failure is returned. Rejects exactly when the handler throws null or undefined |
| `ArcServer.BadVersionIgnoresHandlers` | examples/typescript/server-basic.ts:86-92 | the version gate consults no handler |
| `ArcServer.BadVersionIgnoresTable` | examples/typescript/server-basic.ts:86-95 | the version gate comes before the method lookup: a bad-version reply does not depend on which methods are registered |
| `ArcServer.HitConsultsRoutedHandler` | examples/typescript/server-basic.ts:95-108 | a registered method consults only its own handler, applied to the request's params and context |
| `ArcServer.Serve` | examples/typescript/server-basic.ts:151-193 | same status gate as the multi-agent server, dispatching through this server's `Process` |
| `ArcClient.NewRequest` | examples/typescript/client-basic.ts:57-65 | a built request has `arc` "1.0", the client's own `requestAgent`, the caller's method, target, params and id unchanged, and a `traceId` exactly when the argument is non-empty |
| `ArcClient.Headers` | examples/typescript/client-basic.ts:67-74 | both media-type headers are `application/arc+json`; `Authorization` is `Bearer <token>` exactly when the token is non-empty |
| `ArcClient.Accept` | examples/typescript/client-basic.ts:82-92 | a non-2xx status is an HTTP error before the body is read; an undecodable body is an error; a body with `error` set fails with its code and message; otherwise the response is returned unchanged |
| `ArcClient.SendRequest` | examples/typescript/client-basic.ts:51-93 | the built request is posted together with the client's headers; the call succeeds exactly when the status is 2xx and the reply decodes without an error, and then it returns that reply |
| `ArcClient.UserMessageRoundTrip` | examples/typescript/client-basic.ts:108-116 | a user message with one `TextPart` reads back as its text |
| `ArcClient.PriorityRoundTrip` | examples/typescript/client-basic.ts:101 | each of the four priorities reads back from the name that is sent |
| `ArcClient.CreateTask` | examples/typescript/client-basic.ts:98-121 | `task.create`, with an initial user message that reads back as the text, and a priority that reads back as the given one, or `NORMAL` if none is given |
| `ArcClient.StartChat` | examples/typescript/client-basic.ts:126-149 | `chat.start`, with an initial user message that reads back as the text, and `stream` equal to the given flag, or false |
| `ArcClient.GetTaskInfo` | examples/typescript/client-basic.ts:154-169 | `task.info`, with the task id and both `includeMessages` and `includeArtifacts` true |
| `ArcClient.SendChatMessage` | examples/typescript/client-basic.ts:174-197 | `chat.message`, with the chat id and a user message that reads back as the text |
| `Interop.SingleAgentSuccess` | examples/typescript/server-basic.ts:107-124 | a client call to a registered method whose handler returns `v` is accepted: the response is from the server's agent, addressed to the client, with the client's id, the forwarded trace id and `v` |
| `Interop.SingleAgentUnknownMethod` | examples/typescript/server-basic.ts:95-105 | a client call to an unregistered method fails at the client with `-32601` and `Method not found: <method>`; the client's own request always passes the version gate |
| `Interop.SingleAgentNullishThrow` | examples/typescript/server-basic.ts:176-191 | a handler that throws null or undefined reaches the client as HTTP 400, not as an ARC error |
| `Interop.MultiAgentUnknownAgent` | examples/typescript/multi-agent-server.ts:61-70 | a client call to an agent that is not hosted fails at the client with `-41001` and `Agent not found: <agent>` |
| `Interop.MultiAgentSuccess` | examples/typescript/multi-agent-server.ts:94-102 | a routed client call whose handler returns `v` is accepted from the serving agent, addressed back to the client |
| `Interop.NullResultLeavesBothNull` | examples/typescript/server-basic.ts:108-118 | a handler that returns null yields a response in which `result` and `error` are both null |

## Left out

- HTTP plumbing is not modelled: `http.createServer`, `server.listen`, the port, CORS and content-type headers, body streaming and `fetch`. The decoded body arrives as `Option<Request>`, where `None` means `JSON.parse` threw. The reply arrives as a status and an `Option<Response>`.
- JSON serialisation and parsing are not modelled. `Interop` assumes a response survives `JSON.stringify` and `response.json()` unchanged.
- JSON numbers are integers. Floating point, `NaN` (which is falsy) and non-integral error codes are not represented.
- Request fields keep the types the source declares. A body that parses to something other than an object, or a field of another JSON type (for example a numeric `arc`), is not represented. A non-string `arc` would take the same version-error branch, and only the message text would differ.
- A handler that returns `undefined` is modelled as returning a value. The omitted `result` field is not distinguished from `null`.
- async/await and promises: a handler's run is a synchronous `Outcome`, and a rejected `processRequest` is `Reply.Rejected`. Concurrency between requests is not modelled, because each dispatch is a pure function of the routing table and its own request.
- The message of the single-agent server's 400 body (`error.message` of a parse or type error) is text generated by the JavaScript engine, so it is not modelled.
- `ArcClient.Accept`: the client's thrown `Error` strings (`HTTP error! status: …`, `ARC Error <code>: <message>`) are modelled as structured `ClientError` values carrying the same status, code and message.
- Request ids stamped from `Date.now()` are taken as a parameter.
- ArcClient.CreateTask, ArcClient.StartChat, ArcClient.GetTaskInfo and ArcClient.SendChatMessage return the request envelope they send rather than the reply. Sending it, with the client's headers, and accepting the reply is `ArcClient.SendRequest`, which these calls reach unchanged in the source.
- The handler bodies in the `main()` functions are not modelled, because they return canned data built from the clock. Console logging is not modelled either.
- `examples/python/server/multi_agent_example.py` is not part of this model. It depends on an SDK that is not shown, and its routing duplicates the TypeScript multi-agent server.
- The documentation site (`src/components`, `src/pages`, `docusaurus.config.js`, `sidebars.js`) is not part of this model, because it is UI and configuration only.
