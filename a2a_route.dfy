/** The Agent2Agent route `POST /a2a/agent/:agentId`: a JSON-RPC 2.0 envelope
    check, an agent lookup, translation of the inbound A2A messages into the
    agent's chat format, and assembly of the A2A task the agent's reply
    becomes. Everything the handler takes from outside is a parameter: the
    registry of agents (each with its `generate` call), the fresh ids
    `randomUUID` hands out, the current time as `toISOString` renders it, and
    `JSON.stringify` / `String(v)` on values the route does not inspect. */
module A2aRoute {
  import opened Wrappers
  import opened Text
  import opened JsValues

  /** The request as the handler sees it: the route parameter and the body,
      which `c.req.json()` either parses or rejects. */
  datatype Body = Unparseable | Parsed(value: JsValue)
  datatype Request = Request(agentId: string, body: Body)

  /** One message in the agent's chat format. */
  datatype AgentMessage = AgentMessage(role: JsValue, content: string)

  /** What `agent.generate` resolves to: `text` and `toolResults` may be absent. */
  datatype Reply = Reply(text: Option<string>, toolResults: Option<seq<JsValue>>)

  /** A registered agent: `generate` resolves to a reply or rejects with a message. */
  datatype Agent = Agent(generate: seq<AgentMessage> -> Result<Reply, string>)

  /** The capabilities the handler calls: `randomUUID` as the n-th fresh id,
      `new Date().toISOString()`, `JSON.stringify` and `String`. */
  datatype Env = Env(uuid: nat -> string, now: string, json: JsValue -> string, show: JsValue -> string)

  /** An artifact: its id, its name, and the texts of its `{kind: 'text'}` parts. */
  datatype Artifact = Artifact(artifactId: string, name: string, texts: seq<string>)

  /** The parts of a history entry: an inbound message's `parts` echoed as
      they came, or the text parts the handler builds. */
  datatype Parts = Echoed(raw: JsValue) | Texts(texts: seq<string>)

  /** A history entry (`kind: 'message'`). */
  datatype HistoryEntry = HistoryEntry(role: JsValue, parts: Parts, messageId: JsValue, taskId: JsValue)

  /** The status message (`role: 'agent'`, `kind: 'message'`). */
  datatype StatusMessage = StatusMessage(messageId: string, texts: seq<string>)
  datatype Status = Status(state: string, timestamp: string, message: StatusMessage)

  /** The A2A task the result carries (`kind: 'task'`). */
  datatype Task = Task(id: JsValue, contextId: JsValue, status: Status, artifacts: seq<Artifact>, history: seq<HistoryEntry>)

  datatype ErrorData =
    | NoData
    | AgentNotFound(availableAgents: set<string>, requestedAgent: string)
    | Internal(details: string)

  /** The JSON-RPC response (`jsonrpc: '2.0'` in both forms) with its HTTP status. */
  datatype Response =
    | Ok(id: JsValue, result: Task)
    | Err(httpStatus: int, id: JsValue, code: int, message: string, data: ErrorData)

  // JSON-RPC 2.0 error codes (section 5.1 of the JSON-RPC 2.0 Specification).
  const InvalidRequest := -32600
  const InvalidParams := -32602
  const InternalError := -32603

  const Version := "2.0"
  const Completed := "completed"
  const ReadyText := "Ready to receive requests"
  const VersionMessage := "Invalid Request: jsonrpc must be \"2.0\""
  const IdMessage := "Invalid Request: id is required"
  const ParamsMessage := "Invalid params: message or messages required"
  const InternalMessage := "Internal error"
  const DestructureError := "Cannot destructure property 'jsonrpc' of 'body' as it is null."
  const PartsNotArray := "msg.parts?.map is not a function"

  function NotFoundMessage(agentId: string): string {
    "Agent '" + agentId + "' not found"
  }

  // ---------------------------------------------------------------------------
  // Fresh ids

  /** `v || randomUUID()` with the counter of ids drawn so far: a fresh id is
      drawn only when `v` is falsy. */
  function OrFresh(v: JsValue, uuid: nat -> string, next: nat): (out: (JsValue, nat))
    ensures out.0 == v || out.0 == Str(uuid(next))
    ensures out.1 == next <==> Truthy(v)
    ensures out.1 <= next + 1
    ensures Truthy(v) ==> out == (v, next)
    ensures !Truthy(v) ==> out == (Str(uuid(next)), next + 1)
  {
    if Truthy(v) then (v, next) else (Str(uuid(next)), next + 1)
  }

  // ---------------------------------------------------------------------------
  // The parse-failure answer

  /** The task returned when the body is not JSON. */
  function ReadyTask(env: Env): (t: Task)
    ensures t.status.state == Completed && t.status.timestamp == env.now
    ensures t.status.message.texts == [ReadyText]
    ensures t.artifacts == [] && t.history == []
    ensures t.id == Str(env.uuid(0)) && t.contextId == Str(env.uuid(1))
    ensures t.status.message.messageId == env.uuid(2)
  {
    Task(Str(env.uuid(0)), Str(env.uuid(1)),
      Status(Completed, env.now, StatusMessage(env.uuid(2), [ReadyText])), [], [])
  }

  // ---------------------------------------------------------------------------
  // Selecting the messages

  /** `messagesList`: `[message]` when `message` is truthy, else `messages`
      when it is an array (possibly empty), else nothing. */
  function MessagesList(message: JsValue, messages: JsValue): (list: Option<seq<JsValue>>)
    ensures Truthy(message) ==> list == Some([message])
    ensures !Truthy(message) && messages.Arr? ==> list == Some(messages.items)
    ensures list.None? <==> !Truthy(message) && !messages.Arr?
  {
    if Truthy(message) then Some([message])
    else if Truthy(messages) && messages.Arr? then Some(messages.items)
    else None
  }

  // ---------------------------------------------------------------------------
  // Translating messages

  /** What the part callback returns: `part.text` for a text part,
      `JSON.stringify(part.data)` for a data part (`undefined` when there is
      no data), "" for any other kind; reading `kind` off `null` throws. */
  function Piece(part: JsValue, env: Env): (r: Result<JsValue, string>)
    ensures r.Failure? <==> Nullish(part)
    ensures r.Success? && Field(part, "kind") == Str("text") ==> r.value == Field(part, "text")
    ensures r.Success? && Field(part, "kind") == Str("data") ==>
      r.value == (if Field(part, "data").Undefined? then Undefined else Str(env.json(Field(part, "data"))))
    ensures r.Success? && Field(part, "kind") != Str("text") && Field(part, "kind") != Str("data") ==>
      r.value == Str("")
  {
    var kind :- Read(part, "kind");
    if kind == Str("text") then Success(Field(part, "text"))
    else if kind == Str("data") then
      var data := Field(part, "data");
      Success(if data.Undefined? then Undefined else Str(env.json(data)))
    else Success(Str(""))
  }

  /** The callback mapped over every part, in order; the first throw wins. */
  function Pieces(parts: seq<JsValue>, env: Env): (r: Result<seq<JsValue>, string>)
    ensures r.Failure? <==> exists i :: 0 <= i < |parts| && Nullish(parts[i])
    ensures r.Success? ==> |r.value| == |parts|
    ensures r.Success? ==> forall i :: 0 <= i < |parts| ==> r.value[i] == Piece(parts[i], env).value
  {
    if parts == [] then Success([])
    else
      var first :- Piece(parts[0], env);
      var rest :- Pieces(parts[1..], env);
      assert forall i :: 1 <= i < |parts| ==> parts[i] == parts[1..][i - 1];
      Success([first] + rest)
  }

  /** How `Array.prototype.join` writes one element: `null` and `undefined`
      as "", strings as they are, everything else through `String(v)`. */
  function JoinText(v: JsValue, env: Env): string {
    match v
    case Undefined => ""
    case Null => ""
    case Str(s) => s
    case _ => env.show(v)
  }

  function JoinTexts(vs: seq<JsValue>, env: Env): (ts: seq<string>)
    ensures |ts| == |vs|
    ensures forall i :: 0 <= i < |vs| ==> ts[i] == JoinText(vs[i], env)
  {
    seq(|vs|, i requires 0 <= i < |vs| => JoinText(vs[i], env))
  }

  /** The text one part that is not `null` contributes to the joined content:
      the text of a text part, `JSON.stringify(data)` of a data part, and ""
      for a data part without data or a part of any other kind. */
  function Rendering(part: JsValue, env: Env): (t: string)
    requires !Nullish(part)
    ensures Field(part, "kind") == Str("text") ==> t == JoinText(Field(part, "text"), env)
    ensures Field(part, "kind") == Str("data") && !Field(part, "data").Undefined? ==>
      t == env.json(Field(part, "data"))
    ensures Field(part, "kind") == Str("data") && Field(part, "data").Undefined? ==> t == ""
    ensures Field(part, "kind") != Str("text") && Field(part, "kind") != Str("data") ==> t == ""
  {
    JoinText(Piece(part, env).value, env)
  }

  function Renderings(parts: seq<JsValue>, env: Env): (ts: seq<string>)
    requires forall i :: 0 <= i < |parts| ==> !Nullish(parts[i])
    ensures |ts| == |parts|
  {
    seq(|parts|, i requires 0 <= i < |parts| => Rendering(parts[i], env))
  }

  /** `msg.parts?.map(...).join('\n') || ''`. */
  function Content(parts: JsValue, env: Env): (r: Result<string, string>)
    ensures Nullish(parts) ==> r == Success("")
    ensures !Nullish(parts) && !parts.Arr? ==> r == Failure(PartsNotArray)
    ensures parts.Arr? ==> (r.Success? <==> forall i :: 0 <= i < |parts.items| ==> !Nullish(parts.items[i]))
    ensures parts.Arr? && r.Success? ==> r.value == Join(Renderings(parts.items, env), "\n")
  {
    if Nullish(parts) then Success("")
    else if !parts.Arr? then Failure(PartsNotArray)
    else
      var pieces :- Pieces(parts.items, env);
      assert JoinTexts(pieces, env) == Renderings(parts.items, env);
      Success(Join(JoinTexts(pieces, env), "\n"))
  }

  /** One inbound message in the agent's format: its role (default "user")
      and its flattened content. */
  function Translate(msg: JsValue, env: Env): (r: Result<AgentMessage, string>)
    ensures Nullish(msg) ==> r.Failure?
    ensures r.Success? ==> r.value.role == Or(Field(msg, "role"), Str("user"))
    ensures !Nullish(msg) ==> (r.Success? <==> Content(Field(msg, "parts"), env).Success?)
    ensures r.Success? ==> r.value.content == Content(Field(msg, "parts"), env).value
  {
    var role :- Read(msg, "role");
    var content :- Content(Field(msg, "parts"), env);
    Success(AgentMessage(Or(role, Str("user")), content))
  }

  /** `messagesList.map(...)`: one agent message per inbound message, in
      order; the first message that throws decides the error. */
  function TranslateAll(list: seq<JsValue>, env: Env): (r: Result<seq<AgentMessage>, string>)
    ensures r.Success? <==> forall i :: 0 <= i < |list| ==> Translate(list[i], env).Success?
    ensures r.Success? ==> |r.value| == |list|
    ensures r.Success? ==> forall i :: 0 <= i < |list| ==> r.value[i] == Translate(list[i], env).value
    ensures r.Failure? ==>
      exists i :: (0 <= i < |list| && Translate(list[i], env) == Failure(r.error)
                   && forall k :: 0 <= k < i ==> Translate(list[k], env).Success?)
  {
    if list == [] then Success([])
    else
      assert forall i :: 1 <= i < |list| ==> list[i] == list[1..][i - 1];
      var first :- Translate(list[0], env);
      var rest :- TranslateAll(list[1..], env);
      Success([first] + rest)
  }

  // ---------------------------------------------------------------------------
  // Artifacts

  predicate HasToolResults(toolResults: Option<seq<JsValue>>) {
    toolResults.Some? && |toolResults.value| > 0
  }

  function ToolTexts(results: seq<JsValue>, env: Env): (ts: seq<string>)
    ensures |ts| == |results|
    ensures forall i :: 0 <= i < |results| ==> ts[i] == env.json(results[i])
  {
    seq(|results|, i requires 0 <= i < |results| => env.json(results[i]))
  }

  /** The artifacts of a reply: the agent's text under `${agentId}Response`,
      then a "ToolResults" artifact exactly when there are tool results, one
      text part per result in order. Returns the next unused fresh id. */
  function Artifacts(agentId: string, text: string, toolResults: Option<seq<JsValue>>, env: Env, next: nat)
    : (out: (seq<Artifact>, nat))
    ensures |out.0| == if HasToolResults(toolResults) then 2 else 1
    ensures out.0[0] == Artifact(env.uuid(next), agentId + "Response", [text])
    ensures HasToolResults(toolResults) ==>
      out.0[1] == Artifact(env.uuid(next + 1), "ToolResults", ToolTexts(toolResults.value, env))
    ensures out.1 == next + |out.0|
  {
    var first := Artifact(env.uuid(next), agentId + "Response", [text]);
    if HasToolResults(toolResults) then
      ([first, Artifact(env.uuid(next + 1), "ToolResults", ToolTexts(toolResults.value, env))], next + 2)
    else ([first], next + 1)
  }

  /** The `artifacts` array as the handler builds it: one literal, then a
      `push` when there are tool results. */
  method BuildArtifacts(agentId: string, text: string, toolResults: Option<seq<JsValue>>, env: Env, next: nat)
    returns (artifacts: seq<Artifact>, next': nat)
    ensures (artifacts, next') == Artifacts(agentId, text, toolResults, env, next)
  {
    next' := next;
    artifacts := [Artifact(env.uuid(next'), agentId + "Response", [text])];
    next' := next' + 1;
    if toolResults.Some? && |toolResults.value| > 0 {
      var texts := [];
      for i := 0 to |toolResults.value|
        invariant texts == ToolTexts(toolResults.value[..i], env)
      {
        texts := texts + [env.json(toolResults.value[i])];
      }
      assert toolResults.value[..|toolResults.value|] == toolResults.value;
      artifacts := artifacts + [Artifact(env.uuid(next'), "ToolResults", texts)];
      next' := next' + 1;
      assert artifacts == [Artifact(env.uuid(next), agentId + "Response", [text]),
                           Artifact(env.uuid(next + 1), "ToolResults", ToolTexts(toolResults.value, env))];
    }
  }

  // ---------------------------------------------------------------------------
  // History

  /** The history entries of the inbound messages, drawing fresh ids in call
      order: for each message its `messageId` (when falsy), then its `taskId`
      (when both its own and the request's are falsy). */
  function InboundHistory(list: seq<JsValue>, taskId: JsValue, uuid: nat -> string, next: nat)
    : (out: (seq<HistoryEntry>, nat))
    ensures |out.0| == |list|
    ensures next <= out.1
    ensures forall i :: 0 <= i < |list| ==>
      && out.0[i].role == Or(Field(list[i], "role"), Str("user"))
      && out.0[i].parts == Echoed(Field(list[i], "parts"))
      && (Truthy(Field(list[i], "messageId")) ==> out.0[i].messageId == Field(list[i], "messageId"))
      && (Truthy(Field(list[i], "taskId")) ==> out.0[i].taskId == Field(list[i], "taskId"))
      && (!Truthy(Field(list[i], "taskId")) && Truthy(taskId) ==> out.0[i].taskId == taskId)
    // A falsy id is replaced by an id drawn during this call.
    ensures forall i :: 0 <= i < |list| && !Truthy(Field(list[i], "messageId")) ==>
      exists k :: next <= k < out.1 && out.0[i].messageId == Str(uuid(k))
    ensures forall i :: 0 <= i < |list| && !Truthy(Field(list[i], "taskId")) && !Truthy(taskId) ==>
      exists k :: next <= k < out.1 && out.0[i].taskId == Str(uuid(k))
    decreases |list|
  {
    if list == [] then ([], next)
    else
      var msg := list[0];
      var messageId := OrFresh(Field(msg, "messageId"), uuid, next);
      var tid := OrFresh(Or(Field(msg, "taskId"), taskId), uuid, messageId.1);
      var rest := InboundHistory(list[1..], taskId, uuid, tid.1);
      assert forall i :: 1 <= i < |list| ==> list[i] == list[1..][i - 1];
      assert !Truthy(Field(msg, "messageId")) ==> messageId.0 == Str(uuid(next));
      assert !Truthy(Field(msg, "taskId")) && !Truthy(taskId) ==> tid.0 == Str(uuid(messageId.1));
      var entry := HistoryEntry(Or(Field(msg, "role"), Str("user")), Echoed(Field(msg, "parts")), messageId.0, tid.0);
      ([entry] + rest.0, rest.1)
  }

  /** The whole history: the inbound entries and then the agent's reply. */
  function History(list: seq<JsValue>, text: string, taskId: JsValue, uuid: nat -> string, next: nat)
    : (out: (seq<HistoryEntry>, nat))
    ensures |out.0| == |list| + 1
    ensures out.0[..|list|] == InboundHistory(list, taskId, uuid, next).0
    ensures out.0[|list|].role == Str("agent") && out.0[|list|].parts == Texts([text])
    ensures Truthy(taskId) ==> out.0[|list|].taskId == taskId
  {
    var inbound := InboundHistory(list, taskId, uuid, next);
    var messageId := Str(uuid(inbound.1));
    var tid := OrFresh(taskId, uuid, inbound.1 + 1);
    (inbound.0 + [HistoryEntry(Str("agent"), Texts([text]), messageId, tid.0)], tid.1)
  }

  // ---------------------------------------------------------------------------
  // The answer to a valid request

  /** `response.text || ''`. */
  function AgentText(reply: Reply): (text: string)
    ensures text == "" <==> reply.text.None? || reply.text == Some("")
    ensures text != "" ==> reply.text == Some(text)
  {
    if reply.text.Some? then reply.text.value else ""
  }

  /** From translation to the finished task, for an agent and a message list
      that passed validation; an error is what the handler's `catch` sees. */
  function Respond(agentId: string, agent: Agent, list: seq<JsValue>, contextId: JsValue, taskId: JsValue, env: Env)
    : (r: Result<Task, string>)
    ensures TranslateAll(list, env).Failure? ==> r == Failure(TranslateAll(list, env).error)
    ensures TranslateAll(list, env).Success? ==>
      var reply := agent.generate(TranslateAll(list, env).value);
      && (reply.Failure? ==> r == Failure(reply.error))
      && (reply.Success? ==> r.Success?)
    ensures r.Success? ==>
      && TranslateAll(list, env).Success?
      && agent.generate(TranslateAll(list, env).value).Success?
      && var reply := agent.generate(TranslateAll(list, env).value).value;
      && var text := AgentText(reply);
      && |r.value.artifacts| == (if HasToolResults(reply.toolResults) then 2 else 1)
      && r.value.status.state == Completed
      && r.value.status.timestamp == env.now
      && r.value.status.message.texts == [text]
      && |r.value.history| == |list| + 1
      && r.value.history[|list|].parts == Texts([text])
      && r.value.artifacts[0].name == agentId + "Response"
      && r.value.artifacts[0].texts == [text]
      && (Truthy(taskId) ==> r.value.id == taskId)
      && (Truthy(contextId) ==> r.value.contextId == contextId)
      && (!Truthy(taskId) ==> exists k :: r.value.id == Str(env.uuid(k)))
      && (!Truthy(contextId) ==> exists k :: r.value.contextId == Str(env.uuid(k)))
  {
    var messages :- TranslateAll(list, env);
    var reply :- agent.generate(messages);
    var text := AgentText(reply);
    var artifacts := Artifacts(agentId, text, reply.toolResults, env, 0);
    var history := History(list, text, taskId, env.uuid, artifacts.1);
    var id := OrFresh(taskId, env.uuid, history.1);
    var context := OrFresh(contextId, env.uuid, id.1);
    assert !Truthy(taskId) ==> id.0 == Str(env.uuid(history.1));
    assert !Truthy(contextId) ==> context.0 == Str(env.uuid(id.1));
    Success(Task(id.0, context.0, Status(Completed, env.now, StatusMessage(env.uuid(context.1), [text])),
      artifacts.0, history.0))
  }

  // ---------------------------------------------------------------------------
  // The handler

  /** The envelope passes: a non-null body with `jsonrpc === "2.0"` and a truthy id. */
  predicate EnvelopeValid(body: JsValue) {
    !Nullish(body) && Field(body, "jsonrpc") == Str(Version) && Truthy(Field(body, "id"))
  }

  /** The messages a body's `params` selects (`params || {}`). */
  function SelectedMessages(body: JsValue): (m: Option<seq<JsValue>>)
    ensures !Truthy(Field(body, "params")) ==> m.None?
    ensures var params := Field(body, "params");
      Truthy(params) && Truthy(Field(params, "message")) ==> m == Some([Field(params, "message")])
  {
    var params := Or(Field(body, "params"), Obj(map[]));
    MessagesList(Field(params, "message"), Field(params, "messages"))
  }

  /** The handler: parse, version, id, agent, params, then the agent call;
      the first check that fails decides the response, and anything thrown
      after parsing becomes an internal error. */
  function Handle(req: Request, agents: map<string, Agent>, env: Env): (r: Response)
    // Every error pairs its JSON-RPC code with one HTTP status; a parse
    // failure is never an error.
    ensures r.Err? ==>
      || (r.code == InvalidRequest && r.httpStatus == 400)
      || (r.code == InvalidParams && (r.httpStatus == 400 || r.httpStatus == 404))
      || (r.code == InternalError && r.httpStatus == 500 && r.id == Null)
    ensures req.body.Unparseable? ==>
      && r.Ok? && r.id == Null && r.result.status.state == Completed
      && r.result.status.message.texts == [ReadyText]
      && r.result.artifacts == [] && r.result.history == []
    // The version check comes first, whatever the id, agent or params.
    ensures req.body.Parsed? && !Nullish(req.body.value) && Field(req.body.value, "jsonrpc") != Str(Version) ==>
      r == Err(400, Or(Field(req.body.value, "id"), Null), InvalidRequest, VersionMessage, NoData)
    // Any falsy id is refused, before the agent is looked up.
    ensures req.body.Parsed? && !Nullish(req.body.value) && Field(req.body.value, "jsonrpc") == Str(Version)
            && !Truthy(Field(req.body.value, "id")) ==>
      r == Err(400, Null, InvalidRequest, IdMessage, NoData)
    ensures r.Err? && r.code == InvalidRequest <==>
      req.body.Parsed? && !Nullish(req.body.value) && !EnvelopeValid(req.body.value)
    // HTTP 404 exactly for an unknown agent behind a valid envelope.
    ensures r.Err? && r.httpStatus == 404 <==>
      req.body.Parsed? && EnvelopeValid(req.body.value) && req.agentId !in agents
    ensures r.Err? && r.httpStatus == 404 ==>
      && r.id == Field(req.body.value, "id") && r.code == InvalidParams
      && r.data == AgentNotFound(agents.Keys, req.agentId)
    // Missing messages are reported only for a known agent.
    ensures r.Err? && r.code == InvalidParams && r.httpStatus == 400 <==>
      req.body.Parsed? && EnvelopeValid(req.body.value) && req.agentId in agents
      && SelectedMessages(req.body.value).None?
    // A task answers a parse failure or a request that passed every check,
    // and echoes the request id.
    ensures r.Ok? && req.body.Parsed? ==>
      && EnvelopeValid(req.body.value) && req.agentId in agents
      && SelectedMessages(req.body.value).Some?
      && r.id == Field(req.body.value, "id")
      && r.result.status.state == Completed
  {
    match req.body
    case Unparseable => Ok(Null, ReadyTask(env))
    case Parsed(body) =>
      if Nullish(body) then Err(500, Null, InternalError, InternalMessage, Internal(DestructureError))
      else
        var requestId := Field(body, "id");
        if Field(body, "jsonrpc") != Str(Version) then
          Err(400, Or(requestId, Null), InvalidRequest, VersionMessage, NoData)
        else if !Truthy(requestId) then
          Err(400, Null, InvalidRequest, IdMessage, NoData)
        else if req.agentId !in agents then
          Err(404, requestId, InvalidParams, NotFoundMessage(req.agentId), AgentNotFound(agents.Keys, req.agentId))
        else
          var params := Or(Field(body, "params"), Obj(map[]));
          match SelectedMessages(body)
          case None => Err(400, requestId, InvalidParams, ParamsMessage, NoData)
          case Some(list) =>
            match Respond(req.agentId, agents[req.agentId], list, Field(params, "contextId"), Field(params, "taskId"), env)
            case Success(task) => Ok(requestId, task)
            case Failure(e) => Err(500, Null, InternalError, InternalMessage, Internal(e))
  }

  /** A successful answer to a request with N messages: N + 1 history
      entries echoing each inbound role (default "user") and parts, the
      agent's text last and in the status message, the `${agentId}Response`
      artifact first, and the request's task and context ids when given. */
  lemma SuccessShape(req: Request, agents: map<string, Agent>, env: Env)
    requires req.body.Parsed? && Handle(req, agents, env).Ok?
    ensures var body := req.body.value;
      var list := SelectedMessages(body).value;
      var params := Or(Field(body, "params"), Obj(map[]));
      var task := Handle(req, agents, env).result;
      && |task.history| == |list| + 1
      && (forall i :: 0 <= i < |list| ==>
            task.history[i].role == Or(Field(list[i], "role"), Str("user"))
            && task.history[i].parts == Echoed(Field(list[i], "parts"))
            && (Truthy(Field(list[i], "messageId")) ==> task.history[i].messageId == Field(list[i], "messageId")))
      && task.history[|list|].role == Str("agent")
      && task.history[|list|].parts == Texts(task.status.message.texts)
      && 1 <= |task.artifacts| <= 2
      && task.artifacts[0].name == req.agentId + "Response"
      && task.artifacts[0].texts == task.status.message.texts
      && (Truthy(Field(params, "taskId")) ==> task.id == Field(params, "taskId"))
      && (Truthy(Field(params, "contextId")) ==> task.contextId == Field(params, "contextId"))
      && (forall i :: 0 <= i < |list| && !Truthy(Field(list[i], "messageId")) ==>
            exists k :: task.history[i].messageId == Str(env.uuid(k)))
      && (!Truthy(Field(params, "taskId")) ==> exists k :: task.id == Str(env.uuid(k)))
      && (!Truthy(Field(params, "contextId")) ==> exists k :: task.contextId == Str(env.uuid(k)))
  {
    var body := req.body.value;
    var list := SelectedMessages(body).value;
    var params := Or(Field(body, "params"), Obj(map[]));
    var taskId := Field(params, "taskId");
    var agent := agents[req.agentId];
    var r := Respond(req.agentId, agent, list, Field(params, "contextId"), taskId, env);
    assert r.Success?;
    var reply := agent.generate(TranslateAll(list, env).value).value;
    var text := AgentText(reply);
    var artifacts := Artifacts(req.agentId, text, reply.toolResults, env, 0);
    var history := History(list, text, taskId, env.uuid, artifacts.1);
    assert r.value.history == history.0;
    assert history.0[..|list|] == InboundHistory(list, taskId, env.uuid, artifacts.1).0;
    forall i | 0 <= i < |list|
      ensures r.value.history[i] == InboundHistory(list, taskId, env.uuid, artifacts.1).0[i]
    {
      assert history.0[i] == history.0[..|list|][i];
    }
  }

  /** Past the checks, the handler answers with the assembled task; whatever
      throws on the way (a `null` message or part, `parts` that is not an
      array, a rejected `generate`) is answered instead with HTTP 500, code
      -32603, id null and the thrown message as `data.details`. */
  lemma ThrowIsInternalError(req: Request, agents: map<string, Agent>, env: Env)
    requires req.body.Parsed? && EnvelopeValid(req.body.value) && req.agentId in agents
    requires SelectedMessages(req.body.value).Some?
    ensures var params := Or(Field(req.body.value, "params"), Obj(map[]));
      var outcome := Respond(req.agentId, agents[req.agentId], SelectedMessages(req.body.value).value,
                             Field(params, "contextId"), Field(params, "taskId"), env);
      && (outcome.Failure? ==>
            Handle(req, agents, env) == Err(500, Null, InternalError, InternalMessage, Internal(outcome.error)))
      && (outcome.Success? ==> Handle(req, agents, env) == Ok(Field(req.body.value, "id"), outcome.value))
  {
  }

  /** The joined content splits back at '\n' into one rendering per part,
      in order, whatever the parts' kinds, provided no rendering holds a
      '\n' itself. */
  lemma ContentRoundTrip(parts: seq<JsValue>, env: Env)
    requires |parts| >= 1
    requires forall i :: 0 <= i < |parts| ==> !Nullish(parts[i])
    requires forall i :: 0 <= i < |parts| ==> '\n' !in Rendering(parts[i], env)
    ensures Content(Arr(parts), env).Success?
    ensures Split(Content(Arr(parts), env).value, '\n') == Renderings(parts, env)
  {
    var rs := Renderings(parts, env);
    assert forall k :: 0 <= k < |rs| ==> '\n' !in rs[k] by {
      forall k | 0 <= k < |rs| ensures '\n' !in rs[k] {
        assert rs[k] == Rendering(parts[k], env);
      }
    }
    SplitJoin(rs, '\n');
  }

  /** A part of an unknown kind contributes an empty line: an image part
      followed by the text part "a" gives the content "\na". */
  lemma OtherKindExample(env: Env)
    ensures var image := Obj(map["kind" := Str("image")]);
      var text := Obj(map["kind" := Str("text"), "text" := Str("a")]);
      Content(Arr([image, text]), env) == Success("\na")
  {
    var image := Obj(map["kind" := Str("image")]);
    var text := Obj(map["kind" := Str("text"), "text" := Str("a")]);
    assert Rendering(image, env) == "";
    assert Rendering(text, env) == "a";
    assert Renderings([image, text], env) == ["", "a"];
    assert Join(["", "a"], "\n") == "\na";
  }
}
