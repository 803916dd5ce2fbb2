/**
 `ARCClient`: builds request envelopes in the client's name, fixes the
 method and `params` shape of each convenience call, and decides whether a
 reply is accepted. `fetch` is not modelled: the caller supplies the request
 id (the source stamps it from the clock) and the HTTP status and decoded
 body of the reply.
 */
module ArcClient {
  import opened Wrappers
  import Json
  import opened Envelope

  datatype Client = Client(endpoint: string, requestAgent: string, token: Option<string>)

  /** The request envelope `sendRequest` posts: fixed version, the client's own agent, trace id only when truthy. */
  function NewRequest(c: Client, id: Json.Value, methodName: string, targetAgent: string,
                      params: Json.Value, traceId: Option<string>): (r: Request)
    ensures r.arc == Some(ProtocolVersion)
    ensures r.id == id && r.requestAgent == c.requestAgent
    ensures r.methodName == methodName && r.targetAgent == targetAgent && r.params == params
    ensures r.traceId.Some? <==> traceId.Some? && traceId.value != ""
    ensures r.traceId.Some? ==> r.traceId == traceId
  {
    Request(Some(ProtocolVersion), id, methodName, c.requestAgent, targetAgent, params, ForwardTrace(traceId))
  }

  /** The value of the header `name` in `headers`, if set. */
  function Header(headers: seq<(string, string)>, name: string): Option<string>
  {
    if |headers| == 0 then None
    else if headers[|headers| - 1].0 == name then Some(headers[|headers| - 1].1)
    else Header(headers[..|headers| - 1], name)
  }

  /** The request headers: ARC media types both ways, and a bearer token only when the token is truthy. */
  function Headers(c: Client): (hs: seq<(string, string)>)
    ensures Header(hs, "Content-Type") == Some("application/arc+json")
    ensures Header(hs, "Accept") == Some("application/arc+json")
    ensures Header(hs, "Authorization").Some? <==> c.token.Some? && c.token.value != ""
    ensures Header(hs, "Authorization").Some? ==> Header(hs, "Authorization") == Some("Bearer " + c.token.value)
  {
    var base := [("Content-Type", "application/arc+json"), ("Accept", "application/arc+json")];
    assert base[..1] == [base[0]];
    if c.token.Some? && c.token.value != "" then
      var hs := base + [("Authorization", "Bearer " + c.token.value)];
      assert hs[..2] == base;
      hs
    else base
  }

  /** Why `sendRequest` rejected. */
  datatype ClientError =
    | HttpFailure(status: int)                          // `HTTP error! status: ...`
    | Undecodable                                       // `response.json()` rejected
    | RemoteError(code: Json.Value, message: Json.Value) // `ARC Error <code>: <message>`

  /** `response.ok`: a status in the 2xx range. */
  predicate Ok(status: int)
  {
    200 <= status <= 299
  }

  /**
   Acceptance of a reply: a non-2xx status is an error before the body is
   read; a body carrying an error is an error with its code and message;
   anything else is returned unchanged.
   */
  function Accept(status: int, data: Option<Response>): (r: Result<Response, ClientError>)
    ensures !Ok(status) ==> r == Failure(HttpFailure(status))
    ensures Ok(status) && data.None? ==> r == Failure(Undecodable)
    ensures Ok(status) && data.Some? && data.value.error.Some? ==>
              r == Failure(RemoteError(data.value.error.value.code, data.value.error.value.message))
    ensures r.Success? <==> Ok(status) && data.Some? && data.value.error.None?
    ensures r.Success? ==> r.value == data.value
  {
    if !Ok(status) then Failure(HttpFailure(status))
    else if data.None? then Failure(Undecodable)
    else if data.value.error.Some? then
      Failure(RemoteError(data.value.error.value.code, data.value.error.value.message))
    else Success(data.value)
  }

  /**
   `sendRequest`: build the envelope, post it with the client's headers
   through `post`, and accept the reply.
   */
  function SendRequest(c: Client, id: Json.Value, methodName: string, targetAgent: string,
                       params: Json.Value, traceId: Option<string>,
                       post: (seq<(string, string)>, Request) -> (int, Option<Response>)): (r: Result<Response, ClientError>)
    ensures var reply := post(Headers(c), NewRequest(c, id, methodName, targetAgent, params, traceId));
            && (!Ok(reply.0) ==> r == Failure(HttpFailure(reply.0)))
            && (r.Success? <==> Ok(reply.0) && reply.1.Some? && reply.1.value.error.None?)
            && (r.Success? ==> r.value == reply.1.value)
  {
    var reply := post(Headers(c), NewRequest(c, id, methodName, targetAgent, params, traceId));
    Accept(reply.0, reply.1)
  }

  /** A message from the user holding one `TextPart`. */
  function UserMessage(text: string): Json.Value
  {
    Json.Obj([("role", Json.Str("user")),
              ("parts", Json.Arr([Json.Obj([("type", Json.Str("TextPart")), ("content", Json.Str(text))])]))])
  }

  /** Reads back the text of a user message holding exactly one `TextPart`. */
  function UserText(v: Option<Json.Value>): Option<string>
  {
    var parts := Json.Field(v, "parts");
    if Json.Field(v, "role") == Some(Json.Str("user"))
       && parts.Some? && parts.value.Arr? && |parts.value.items| == 1
       && Json.Get(parts.value.items[0], "type") == Some(Json.Str("TextPart"))
       && Json.Get(parts.value.items[0], "content").Some?
       && Json.Get(parts.value.items[0], "content").value.Str?
    then Some(Json.Get(parts.value.items[0], "content").value.s)
    else None
  }

  /** A user message reads back as the text it was built from. */
  lemma UserMessageRoundTrip(text: string)
    ensures UserText(Some(UserMessage(text))) == Some(text)
  {
    var part := [("type", Json.Str("TextPart")), ("content", Json.Str(text))];
    assert part[..1] == [part[0]];
    var members := [("role", Json.Str("user")), ("parts", Json.Arr([Json.Obj(part)]))];
    assert members[..1] == [members[0]];
  }

  /** The priorities a task may be created with. */
  datatype Priority = Low | Normal | High | Urgent

  function PriorityName(p: Priority): string
  {
    match p
    case Low => "LOW"
    case Normal => "NORMAL"
    case High => "HIGH"
    case Urgent => "URGENT"
  }

  /** Reads a priority name back. */
  function ParsePriority(v: Option<Json.Value>): Option<Priority>
  {
    match v
    case Some(Str("LOW")) => Some(Low)
    case Some(Str("NORMAL")) => Some(Normal)
    case Some(Str("HIGH")) => Some(High)
    case Some(Str("URGENT")) => Some(Urgent)
    case _ => None
  }

  /** Every priority reads back from its name. */
  lemma PriorityRoundTrip(p: Priority)
    ensures ParsePriority(Some(Json.Str(PriorityName(p)))) == Some(p)
  {
  }

  /**
   `createTask`: method `task.create`, an initial user message holding the
   text, and the priority, `NORMAL` when the caller gives none.
   */
  function CreateTask(c: Client, id: Json.Value, targetAgent: string, message: string,
                      priority: Option<Priority>, traceId: Option<string>): (r: Request)
    ensures r.methodName == "task.create" && r.targetAgent == targetAgent && r.requestAgent == c.requestAgent
    ensures r.arc == Some(ProtocolVersion) && r.id == id && r.traceId == ForwardTrace(traceId)
    ensures UserText(Json.Get(r.params, "initialMessage")) == Some(message)
    ensures ParsePriority(Json.Get(r.params, "priority")) == Some(priority.GetOr(Normal))
  {
    var members := [("initialMessage", UserMessage(message)),
                    ("priority", Json.Str(PriorityName(priority.GetOr(Normal))))];
    assert members[..1] == [members[0]];
    assert Json.Member(members, "priority") == Some(members[1].1);
    assert Json.Member(members, "initialMessage") == Some(members[0].1);
    UserMessageRoundTrip(message);
    PriorityRoundTrip(priority.GetOr(Normal));
    NewRequest(c, id, "task.create", targetAgent, Json.Obj(members), traceId)
  }

  /** `startChat`: method `chat.start`, an initial user message, and `stream`, false when not given. */
  function StartChat(c: Client, id: Json.Value, targetAgent: string, message: string,
                     stream: Option<bool>, traceId: Option<string>): (r: Request)
    ensures r.methodName == "chat.start" && r.targetAgent == targetAgent && r.requestAgent == c.requestAgent
    ensures r.arc == Some(ProtocolVersion) && r.id == id && r.traceId == ForwardTrace(traceId)
    ensures UserText(Json.Get(r.params, "initialMessage")) == Some(message)
    ensures Json.Get(r.params, "stream") == Some(Json.Bool(stream.GetOr(false)))
  {
    var members := [("initialMessage", UserMessage(message)),
                    ("stream", Json.Bool(stream.GetOr(false)))];
    assert members[..1] == [members[0]];
    UserMessageRoundTrip(message);
    NewRequest(c, id, "chat.start", targetAgent, Json.Obj(members), traceId)
  }

  /** `getTaskInfo`: method `task.info`, the task id, and both inclusion flags set. */
  function GetTaskInfo(c: Client, id: Json.Value, targetAgent: string, taskId: string,
                       traceId: Option<string>): (r: Request)
    ensures r.methodName == "task.info" && r.targetAgent == targetAgent && r.requestAgent == c.requestAgent
    ensures r.arc == Some(ProtocolVersion) && r.id == id && r.traceId == ForwardTrace(traceId)
    ensures Json.Get(r.params, "taskId") == Some(Json.Str(taskId))
    ensures Json.Get(r.params, "includeMessages") == Some(Json.Bool(true))
    ensures Json.Get(r.params, "includeArtifacts") == Some(Json.Bool(true))
  {
    var members := [("taskId", Json.Str(taskId)),
                    ("includeMessages", Json.Bool(true)),
                    ("includeArtifacts", Json.Bool(true))];
    assert members[..2] == [members[0], members[1]];
    assert members[..2][..1] == [members[0]];
    NewRequest(c, id, "task.info", targetAgent, Json.Obj(members), traceId)
  }

  /** `sendChatMessage`: method `chat.message`, the chat id, and one user message. */
  function SendChatMessage(c: Client, id: Json.Value, targetAgent: string, chatId: string,
                           message: string, traceId: Option<string>): (r: Request)
    ensures r.methodName == "chat.message" && r.targetAgent == targetAgent && r.requestAgent == c.requestAgent
    ensures r.arc == Some(ProtocolVersion) && r.id == id && r.traceId == ForwardTrace(traceId)
    ensures Json.Get(r.params, "chatId") == Some(Json.Str(chatId))
    ensures UserText(Json.Get(r.params, "message")) == Some(message)
  {
    var members := [("chatId", Json.Str(chatId)), ("message", UserMessage(message))];
    assert members[..1] == [members[0]];
    UserMessageRoundTrip(message);
    NewRequest(c, id, "chat.message", targetAgent, Json.Obj(members), traceId)
  }
}
