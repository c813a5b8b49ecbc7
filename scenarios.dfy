/**
 * The server wired as main.go wires it (one get_help tool), and what the
 * contracts of the server and the tool give for the situations
 * main_test.go exercises.
 */
module Scenarios {
  import opened Wrappers
  import opened JsonValue
  import opened Mcp
  import GetHelp

  /** The tool main.go registers, with an empty summary path and the given model. */
  function DefaultHelpTool(model: string): Tool {
    HelpTool(GetHelp.GetHelpTool("", model))
  }

  /** After registering get_help, the registry and `tools/list` hold exactly that one tool. */
  method ListAfterRegisteringGetHelp() returns (registered: nat, entries: seq<ToolEntry>)
    ensures registered == 1
    ensures |entries| == 1 && entries[0].name == GetHelp.ToolName
    ensures entries[0].description != ""
    ensures entries[0].inputSchema.JObject? && "type" in entries[0].inputSchema.fields
            && entries[0].inputSchema.fields["type"] == JString("object")
  {
    var server := new McpServer("test", "1.0.0");
    server.RegisterTool(DefaultHelpTool("gpt-4o"));
    registered := |server.tools|;
    entries := server.HandleToolsList();
    assert entries[0].name in server.tools;
  }

  /** Re-registering the same name overwrites the tool and keeps the registry size. */
  method RegisterTwiceKeepsOne(first: Tool, second: Tool) returns (registered: nat, kept: Tool)
    requires first.Name() == second.Name()
    ensures registered == 1 && kept == second
  {
    var server := new McpServer("test", "1.0.0");
    server.RegisterTool(first);
    server.RegisterTool(second);
    registered := |server.tools|;
    kept := server.tools[second.Name()];
  }

  /** `initialize` echoes the id and reports the protocol version and the constructor's name and version. */
  method InitializeReportsIdentity(name: string, version: string, id: int, decodeParams: string -> Option<CallParams>, env: Environment)
    returns (resp: Response)
    ensures resp.jsonrpc == "2.0" && resp.id == id && resp.error.None?
    ensures resp.result.Some? && resp.result.value.Initialized?
    ensures resp.result.value.protocolVersion == "2025-03-26"
    ensures resp.result.value.serverInfo == ServerInfo(name, version)
  {
    var server := new McpServer(name, version);
    resp := server.ProcessRequest(Request("2.0", id, "initialize", "{}"), decodeParams, env);
  }

  /** `tools/call` on a name nobody registered: "Unknown tool", with the request's id. */
  method CallUnknownToolKeepsId(id: int, params: string, decodeParams: string -> Option<CallParams>, env: Environment)
    returns (resp: Response)
    requires decodeParams(params).Some? && decodeParams(params).value.name != GetHelp.ToolName
    ensures resp.id == id && resp.result.None?
    ensures resp.error == Some(RpcError(-32602, "Unknown tool"))
  {
    var server := new McpServer("escalator", "1.0.0");
    server.RegisterTool(DefaultHelpTool("gpt-4o"));
    resp := server.ProcessRequest(Request("2.0", id, "tools/call", params), decodeParams, env);
  }

  /**
   * Calling get_help through `tools/call` without a question is a tool
   * failure, not a protocol error: the result carries the tool's error block.
   */
  lemma MissingQuestionIsToolError(server: McpServer, params: string, decodeParams: string -> Option<CallParams>,
                                   env: Environment, summary: string)
    requires GetHelp.ToolName in server.tools && server.tools[GetHelp.ToolName] == DefaultHelpTool("gpt-4o")
    requires decodeParams(params) == Some(CallParams(GetHelp.ToolName, map["summary" := JString(summary)]))
    ensures server.HandleToolsCall(params, decodeParams, env)
         == Success(ToolCallResult([TextBlock(GetHelp.MissingFieldsText)], true))
  {
    var arguments := map["summary" := JString(summary)];
    assert !GetHelp.HasRequiredFields(arguments);
  }

  /**
   * The get_help tool with a question, a summary, a readable summary file of
   * modest size and a first attempt answered by the stub: that answer, no error.
   */
  lemma HelpToolAnswersFirstAttempt(arguments: map<string, Json>, files: map<string, string>,
                                    upstream: GetHelp.Upstream, readme: string, answer: string)
    requires arguments == map["question" := JString("How do I test this?"), "summary" := JString("Test project")]
    requires GetHelp.DefaultSummaryPath in files && files[GetHelp.DefaultSummaryPath] == readme
    requires |readme| <= 10000
    requires upstream[0] == GetHelp.Completion([answer])
    ensures GetHelp.GetHelpTool("", "gpt-4o").Call(arguments, files, upstream) == GetHelp.CallReply([TextBlock(answer)], None)
  {
    var help := GetHelp.GetHelpTool("", "gpt-4o");
    var question := "How do I test this?";
    assert GetHelp.StringArgument(arguments, "question") == question;
    assert GetHelp.StringArgument(arguments, "summary") == "Test project";
    assert GetHelp.StringArgument(arguments, "relevant_code") == "";
    assert help.LoadSummary(files) == Success(readme);
    GetHelp.ShortFieldsFit(readme, question, "");
    GetHelp.AskSucceedsOnAttempt(upstream, 0);
    assert GetHelp.Ask(upstream).result == Success(answer);
    var r := help.Call(arguments, files, upstream);
    assert r.err.None? && |r.content| == 1 && r.content[0] == TextBlock(answer);
  }

  /**
   * POST /get_help with a question and a summary, a readable summary file
   * and a first attempt answered by the stub: status 200 and that answer.
   */
  lemma HttpAnswersFromUpstream(server: McpServer, body: string, decodeBody: string -> Option<map<string, Json>>,
                                env: Environment, readme: string)
    requires GetHelp.ToolName in server.tools && server.tools[GetHelp.ToolName] == DefaultHelpTool("gpt-4o")
    requires decodeBody(body) == Some(map["question" := JString("How do I test this?"), "summary" := JString("Test project")])
    requires GetHelp.DefaultSummaryPath in env.files && env.files[GetHelp.DefaultSummaryPath] == readme
    requires |readme| <= 10000
    requires env.upstream[0] == GetHelp.Completion(["Use table-driven tests."])
    ensures server.HandleHTTP("POST", body, decodeBody, env) == HttpReply(200, AnswerJson("Use table-driven tests."))
  {
    HelpToolAnswersFirstAttempt(decodeBody(body).value, env.files, env.upstream, readme, "Use table-driven tests.");
  }
}
