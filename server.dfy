/**
 * The MCP server of main.go: a registry of tools keyed by name, the
 * JSON-RPC 2.0 dispatcher for `initialize`, `tools/list` and `tools/call`,
 * and the legacy HTTP handler that forwards a body to `get_help`.
 *
 * JSON decoding is an oracle: a function from the raw text to the decoded
 * value, or None when encoding/json reports an error. What the tools need
 * from outside (files, the chat-completion client) is an `Environment`.
 */
module Mcp {
  import opened Wrappers
  import opened JsonValue
  import GetHelp

  const JsonRpcVersion := "2.0"
  const ProtocolVersion := "2025-03-26"

  const InvalidParamsCode := -32602
  const MethodNotFoundCode := -32601

  const StatusOK := 200
  const StatusBadRequest := 400
  const StatusMethodNotAllowed := 405
  const StatusServiceUnavailable := 503

  /** `http.Error` writes its message followed by a newline. */
  const MethodNotAllowedBody := "Method not allowed\n"
  const MalformedBody := "malformed request\n"
  const ToolMissingBody := "{\"error\":\"Tool not available\"}\n"
  const UnavailableBody := "{\"error\":\"The architect is currently unavailable. Please try again later.\"}\n"

  datatype ServerInfo = ServerInfo(name: string, version: string)

  /** The external results a tool call may consult. */
  datatype Environment = Environment(files: map<string, string>, upstream: GetHelp.Upstream)

  /** What `Tool.Call` returns to the server: the content and whether the error was non-nil. */
  datatype Outcome = Outcome(content: seq<ContentBlock>, failed: bool)

  /**
   * The implementations of the `Tool` interface: the get_help tool, and any
   * other tool, known by its descriptor and the outcome of calling it.
   */
  datatype Tool =
    | HelpTool(help: GetHelp.GetHelpTool)
    | OtherTool(name: string, description: string, schema: Json, outcome: Outcome)
  {
    function Name(): string {
      match this
      case HelpTool(help) => help.Name()
      case OtherTool(name, _, _, _) => name
    }

    function Description(): string {
      match this
      case HelpTool(help) => help.Description()
      case OtherTool(_, description, _, _) => description
    }

    function Schema(): Json {
      match this
      case HelpTool(help) => help.Schema()
      case OtherTool(_, _, schema, _) => schema
    }

    /**
     * `tool.Call(arguments)`; the server only looks at whether the error is
     * nil. get_help fails exactly when its reply carries an error.
     */
    function Call(arguments: map<string, Json>, env: Environment): (o: Outcome)
      ensures HelpTool? ==>
        var reply := help.Call(arguments, env.files, env.upstream);
        o.content == reply.content && (o.failed <==> reply.err.Some?)
      ensures HelpTool? ==> |o.content| == 1 && o.content[0].kind == "text"
      ensures OtherTool? ==> o == outcome
    {
      match this
      case HelpTool(help) =>
        var reply := help.Call(arguments, env.files, env.upstream);
        Outcome(reply.content, reply.err.Some?)
      case OtherTool(_, _, _, outcome) => outcome
    }
  }

  /** One entry of the `tools/list` result. */
  datatype ToolEntry = ToolEntry(name: string, description: string, inputSchema: Json)

  function EntryOf(tool: Tool): ToolEntry {
    ToolEntry(tool.Name(), tool.Description(), tool.Schema())
  }

  /** The `params` of `tools/call` once decoded; absent arguments decode to the empty map. */
  datatype CallParams = CallParams(name: string, arguments: map<string, Json>)

  /** `JsonRPCRequest`; `params` is the raw, not yet decoded, JSON text. */
  datatype Request = Request(jsonrpc: string, id: int, methodName: string, params: string)

  datatype RpcError = RpcError(code: int, message: string)

  const InvalidParams := RpcError(InvalidParamsCode, "Invalid params")
  const UnknownTool := RpcError(InvalidParamsCode, "Unknown tool")
  const MethodNotFound := RpcError(MethodNotFoundCode, "Method not found")

  /** The `result` member of a response, one constructor per method. */
  datatype RpcResult =
    | Initialized(protocolVersion: string, capabilities: Json, serverInfo: ServerInfo)
    | ToolList(tools: seq<ToolEntry>)
    | ToolCallResult(content: seq<ContentBlock>, isError: bool)
  {
    /** The map main.go builds for this result. */
    function ToJson(): (j: Json)
      ensures j.JObject?
      ensures Initialized? ==>
        && j.fields.Keys == {"protocolVersion", "capabilities", "serverInfo"}
        && j.fields["protocolVersion"] == JString(protocolVersion)
        && j.fields["capabilities"] == capabilities
        && j.fields["serverInfo"] == JObject(map["name" := JString(serverInfo.name), "version" := JString(serverInfo.version)])
      ensures ToolList? ==>
        && j.fields.Keys == {"tools"} && j.fields["tools"].JArray?
        && |j.fields["tools"].elems| == |tools|
        && forall i :: 0 <= i < |tools| ==>
             j.fields["tools"].elems[i] == JObject(map[
               "name" := JString(tools[i].name),
               "description" := JString(tools[i].description),
               "inputSchema" := tools[i].inputSchema])
      ensures ToolCallResult? ==>
        && "content" in j.fields && j.fields["content"].JArray?
        && |j.fields["content"].elems| == |content|
        && (forall i :: 0 <= i < |content| ==> j.fields["content"].elems[i] == content[i].ToJson())
        && j.fields.Keys == (if isError then {"content", "isError"} else {"content"})
      ensures ToolCallResult? && isError ==> j.fields["isError"] == JBool(true)
    {
      match this
      case Initialized(protocolVersion, capabilities, serverInfo) =>
        JObject(map[
          "protocolVersion" := JString(protocolVersion),
          "capabilities" := capabilities,
          "serverInfo" := JObject(map["name" := JString(serverInfo.name), "version" := JString(serverInfo.version)])
        ])
      case ToolList(tools) =>
        JObject(map["tools" := JArray(seq(|tools|, i requires 0 <= i < |tools| =>
          JObject(map[
            "name" := JString(tools[i].name),
            "description" := JString(tools[i].description),
            "inputSchema" := tools[i].inputSchema
          ])))])
      case ToolCallResult(content, isError) =>
        var blocks := JArray(seq(|content|, i requires 0 <= i < |content| => content[i].ToJson()));
        if isError then JObject(map["content" := blocks, "isError" := JBool(true)])
        else JObject(map["content" := blocks])
    }
  }

  /** `JsonRPCResponse`; a None member is left out of the encoding (`omitempty`). */
  datatype Response = Response(jsonrpc: string, id: int, result: Option<RpcResult>, error: Option<RpcError>)

  /** The body written by the HTTP handler. */
  datatype HttpBody =
    | PlainText(text: string)   // written by http.Error
    | AnswerJson(answer: string) // `{"answer": ...}` written by json.Encoder
    | NoBody

  datatype HttpReply = HttpReply(status: int, body: HttpBody)

  class McpServer {
    var tools: map<string, Tool>
    const serverInfo: ServerInfo

    /** Every tool is registered under its own name. */
    ghost predicate Valid()
      reads this
    {
      forall name :: name in tools ==> tools[name].Name() == name
    }

    /** `NewMCPServer`: an empty registry and the given identity. */
    constructor (name: string, version: string)
      ensures Valid()
      ensures tools == map[]
      ensures serverInfo == ServerInfo(name, version)
    {
      tools := map[];
      serverInfo := ServerInfo(name, version);
    }

    /** Inserts `tool` under its name, replacing any tool already registered under that name. */
    method RegisterTool(tool: Tool)
      requires Valid()
      modifies this
      ensures Valid()
      ensures tools == old(tools)[tool.Name() := tool]
      ensures tool.Name() in tools && tools[tool.Name()] == tool
      ensures forall name :: name in old(tools) && name != tool.Name() ==> name in tools && tools[name] == old(tools)[name]
      ensures |tools| == if tool.Name() in old(tools) then |old(tools)| else |old(tools)| + 1
    {
      tools := tools[tool.Name() := tool];
    }

    /** The `initialize` result: the protocol version, an empty tools capability and the server's identity. */
    function HandleInitialize(): (r: RpcResult)
      ensures r.Initialized? && r.protocolVersion == ProtocolVersion
      ensures r.capabilities == JObject(map["tools" := JObject(map[])])
      ensures r.serverInfo == serverInfo
    {
      Initialized(ProtocolVersion, JObject(map["tools" := JObject(map[])]), serverInfo)
    }

    /** `entries` lists every registered tool exactly once, in some order. */
    ghost predicate ListsRegistry(entries: seq<ToolEntry>)
      reads this
    {
      && |entries| == |tools|
      && (forall i :: 0 <= i < |entries| ==> entries[i].name in tools && entries[i] == EntryOf(tools[entries[i].name]))
      && (forall i, j :: 0 <= i < j < |entries| ==> entries[i].name != entries[j].name)
      && (forall name :: name in tools ==> exists i :: 0 <= i < |entries| && entries[i].name == name)
    }

    /** `tools/list`: one entry per registered tool, in map-iteration order, which is left open. */
    method HandleToolsList() returns (entries: seq<ToolEntry>)
      requires Valid()
      ensures ListsRegistry(entries)
    {
      entries := [];
      var remaining := tools.Keys;
      while remaining != {}
        invariant remaining <= tools.Keys
        invariant |entries| + |remaining| == |tools|
        invariant forall i :: 0 <= i < |entries| ==>
          entries[i].name in tools && entries[i].name !in remaining && entries[i] == EntryOf(tools[entries[i].name])
        invariant forall i, j :: 0 <= i < j < |entries| ==> entries[i].name != entries[j].name
        invariant forall name :: name in tools && name !in remaining ==>
          exists i :: 0 <= i < |entries| && entries[i].name == name
        decreases |remaining|
      {
        var name :| name in remaining;
        ghost var listed := entries;
        entries := entries + [EntryOf(tools[name])];
        forall other | other in tools && other !in remaining - {name}
          ensures exists i :: 0 <= i < |entries| && entries[i].name == other
        {
          if other == name {
            assert entries[|listed|].name == other;
          } else {
            var i :| 0 <= i < |listed| && listed[i].name == other;
            assert entries[i] == listed[i];
          }
        }
        remaining := remaining - {name};
      }
    }

    /**
     * `tools/call`: undecodable params and unknown names are protocol
     * errors; otherwise the tool's content, marked `isError` when its call
     * failed.
     */
    function HandleToolsCall(params: string, decodeParams: string -> Option<CallParams>, env: Environment): (r: Result<RpcResult, RpcError>)
      reads this
      ensures decodeParams(params).None? ==> r == Failure(InvalidParams)
      ensures decodeParams(params).Some? && decodeParams(params).value.name !in tools ==> r == Failure(UnknownTool)
      ensures r.Success? <==> decodeParams(params).Some? && decodeParams(params).value.name in tools
      ensures r.Success? ==>
        var call := decodeParams(params).value;
        var outcome := tools[call.name].Call(call.arguments, env);
        r.value.ToolCallResult? && r.value.content == outcome.content && r.value.isError == outcome.failed
    {
      match decodeParams(params)
      case None => Failure(InvalidParams)
      case Some(call) =>
        if call.name !in tools then Failure(UnknownTool)
        else
          var outcome := tools[call.name].Call(call.arguments, env);
          Success(ToolCallResult(outcome.content, outcome.failed))
    }

    /** Dispatches one request: the id is echoed and exactly one of result and error is set. */
    method ProcessRequest(req: Request, decodeParams: string -> Option<CallParams>, env: Environment) returns (resp: Response)
      requires Valid()
      ensures resp.jsonrpc == JsonRpcVersion && resp.id == req.id
      ensures resp.result.Some? <==> resp.error.None?
      ensures req.methodName == "initialize" ==> resp.result == Some(HandleInitialize())
      ensures req.methodName == "tools/list" ==>
        resp.result.Some? && resp.result.value.ToolList? && ListsRegistry(resp.result.value.tools)
      ensures req.methodName == "tools/call" ==>
        var handled := HandleToolsCall(req.params, decodeParams, env);
        if handled.Success? then resp.result == Some(handled.value) else resp.error == Some(handled.error)
      ensures req.methodName !in {"initialize", "tools/list", "tools/call"} ==>
        resp.result.None? && resp.error == Some(MethodNotFound)
    {
      resp := Response(JsonRpcVersion, req.id, None, None);
      match req.methodName
      case "initialize" =>
        resp := resp.(result := Some(HandleInitialize()));
      case "tools/list" =>
        var entries := HandleToolsList();
        resp := resp.(result := Some(ToolList(entries)));
      case "tools/call" =>
        var handled := HandleToolsCall(req.params, decodeParams, env);
        if handled.Failure? {
          resp := resp.(error := Some(handled.error));
        } else {
          resp := resp.(result := Some(handled.value));
        }
      case _ =>
        resp := resp.(error := Some(MethodNotFound));
    }

    /**
     * The legacy handler of POST /get_help: the body is the tool's
     * arguments; the answer is the text of the first content block.
     */
    function HandleHTTP(httpMethod: string, body: string, decodeBody: string -> Option<map<string, Json>>, env: Environment): (r: HttpReply)
      reads this
      ensures r.status in {StatusOK, StatusBadRequest, StatusMethodNotAllowed, StatusServiceUnavailable}
      ensures r.status == StatusMethodNotAllowed <==> httpMethod != "POST"
      ensures r.status == StatusMethodNotAllowed ==> r.body == PlainText(MethodNotAllowedBody)
      ensures r.status == StatusBadRequest <==> httpMethod == "POST" && decodeBody(body).None?
      ensures r.status == StatusBadRequest ==> r.body == PlainText(MalformedBody)
      ensures httpMethod == "POST" && decodeBody(body).Some? && GetHelp.ToolName !in tools ==>
        r == HttpReply(StatusServiceUnavailable, PlainText(ToolMissingBody))
      ensures httpMethod == "POST" && decodeBody(body).Some? && GetHelp.ToolName in tools ==>
        var outcome := tools[GetHelp.ToolName].Call(decodeBody(body).value, env);
        && (outcome.failed ==> r == HttpReply(StatusServiceUnavailable, PlainText(UnavailableBody)))
        && (!outcome.failed ==> r.status == StatusOK)
        && (!outcome.failed && |outcome.content| > 0 && outcome.content[0].kind == "text" ==>
              r.body == AnswerJson(outcome.content[0].text))
        && (!outcome.failed && !(|outcome.content| > 0 && outcome.content[0].kind == "text") ==>
              r.body == NoBody)
    {
      if httpMethod != "POST" then
        HttpReply(StatusMethodNotAllowed, PlainText(MethodNotAllowedBody))
      else match decodeBody(body)
        case None => HttpReply(StatusBadRequest, PlainText(MalformedBody))
        case Some(arguments) =>
          if GetHelp.ToolName !in tools then
            HttpReply(StatusServiceUnavailable, PlainText(ToolMissingBody))
          else
            var outcome := tools[GetHelp.ToolName].Call(arguments, env);
            if outcome.failed then
              HttpReply(StatusServiceUnavailable, PlainText(UnavailableBody))
            else if |outcome.content| > 0 && outcome.content[0].kind == "text" then
              HttpReply(StatusOK, AnswerJson(outcome.content[0].text))
            else
              HttpReply(StatusOK, NoBody)
    }
  }
}
