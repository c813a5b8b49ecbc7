# code-escalator, modelled in Dafny

code-escalator is a small Model Context Protocol (MCP) server. It registers one
tool, `get_help`. That tool sends a coding question, together with the contents
of a project-summary file, to a chat-completion service and returns the answer.
The server speaks JSON-RPC 2.0 (`initialize`, `tools/list`, `tools/call`). It
also has a legacy HTTP handler, `POST /get_help`, whose body is the tool's
arguments.

The model has six modules:

- `Wrappers`: `Option` and `Result`.
- `JsonValue`: decoded JSON values and the `{type, text}` content block that
  tools return.
- `Utf8`: Go's `len` of a string, which counts UTF-8 bytes, not characters.
- `GetHelp` (gethelp.go):
  - the `GetHelpTool` value, built from its summary-path and model settings
    (the datatype constructor plays `NewGetHelpTool`);
  - argument extraction, `loadSummary`, `buildPrompt` and its 80,000-byte guard;
  - the `askOpenAI` retry loop, as a method proved equal to the
    specification function `Ask`;
  - `Call`, which chains these steps and stops at the first one that fails,
    and `Invoke`, the same steps run imperatively through the retry loop,
    proved to give `Call`'s reply and to send the prompt `AskedPrompt` names.
- `Mcp` (main.go):
  - the `McpServer` class, whose `tools` map is updated in place by
    `RegisterTool`, and its invariant that every tool is registered under its
    own name;
  - the handlers, the JSON-RPC dispatcher `ProcessRequest`, and the HTTP
    handler as a function from method and body to status and body.
- `Scenarios`: the wiring of main.go (one `get_help` tool) and the situations
  main_test.go exercises, derived from the contracts above.

Values from outside the program are parameters:

- `files` maps each path that opens and reads without error to its contents.
  A path missing from `files` is one that cannot be opened.
- An `Upstream` lists what the chat-completion client returns on each of the
  at most three attempts: an error, or a completion with its choices.
- JSON decoding is a function from the raw text to a decoded value, or `None`
  when decoding fails.

Where the source's comments and its code disagree, the model follows the code:

- The comment at gethelp.go:192 speaks of retrying only 429 and 5xx errors.
  The code retries every client error, so `AskRetriesEveryError` states that.
- The call runs under a three-minute context, but the loop never checks it
  between attempts. The model has no deadline.
- A completion whose first choice is empty text counts as a success. The code
  checks only that there is at least one choice.
- The schema describes the required `summary` argument as the project
  context (gethelp.go:42-45), but the code builds the prompt from the summary
  file. The argument only has to be a non-empty string, and
  `SummaryArgumentOnlyGates` states that the reply does not depend on it.

## Model

| member | source | states |
|---|---|---|
| JsonValue.ContentBlock.ToJson | gethelp.go:69-74 | a content block encodes as an object with exactly the keys `type` and `text`, holding its kind and its text |
| GetHelp.HelpError.Message | gethelp.go:74-207 | the texts at lines 74, 133-135, 163, 197, 201 and 207: the client's error text is passed through unchanged; every other message is non-empty; the open error names the path; the size error contains "20,000 token limit" (main_test.go:211 looks for it) |
| GetHelp.StringArgument | gethelp.go:58-66 | a string argument is taken as is; a non-empty result is exactly the string stored under the key, so an absent or non-string argument reads as "" |
| Utf8.CharByteLen | gethelp.go:162 | a code point takes 1 to 4 bytes, and exactly 1 iff it is below 0x80 |
| Utf8.AsciiAppend | gethelp.go:148-157 | concatenating ASCII text gives ASCII text |
| Utf8.ByteLenAppend | gethelp.go:159-162 | the byte length of a concatenation is the sum of the byte lengths |
| Utf8.ByteLenBounds | gethelp.go:162 | a string's byte length lies between its character count and four times that |
| Utf8.AsciiByteLen | gethelp.go:162 | for ASCII text, Go's `len` equals the character count |
| GetHelp.Render | gethelp.go:148-159 | the prompt is as long as the template plus the three fields, and starts with the template's instruction line and opening tag |
| GetHelp.RoleInIntro | gethelp.go:148 | "software architect" stands at offset 5 of the template (main_test.go:186 looks for it) |
| GetHelp.RenderByteLen | gethelp.go:148-159 | the rendered prompt's byte length is 118 plus the byte lengths of summary, question and code |
| GetHelp.RenderVerbatim | gethelp.go:148-159 | the role, the summary, the question and the code stand unaltered in the rendered prompt, at the offsets the template gives them |
| GetHelp.TemplateIsAscii | gethelp.go:148-157 | every literal part of the template is ASCII |
| GetHelp.TemplateOverheadExact | gethelp.go:148-157 | the template adds exactly 66 + 31 + 21 = 118 bytes around the fields |
| GetHelp.BuildPrompt | gethelp.go:147-167 | the prompt is rejected with the token-limit error iff 118 plus the fields' byte lengths exceed 80,000; an accepted prompt is at most 80,000 bytes and holds every field verbatim |
| GetHelp.OversizedSummaryRejected | gethelp.go:161-164 | a summary of more than 80,000 characters is always rejected, whatever the other fields |
| GetHelp.AsciiPromptLimit | gethelp.go:161-164 | for ASCII fields, rejection happens iff 118 plus the character counts exceed 80,000 |
| GetHelp.ShortFieldsFit | gethelp.go:161-164 | fields of at most 19,000 characters in all always fit, whatever their code points |
| GetHelp.AskFromSettles | gethelp.go:180-205 | from any attempt on, the loop ends at the first non-error or at the third attempt, and the sleeps add up to the backoff schedule |
| GetHelp.AskSettlesAtFirstNonError | gethelp.go:172-205 | 1 to 3 attempts are made; every attempt before the last was an error; the loop stops early only at a non-error; the result is the last attempt's; the total sleep is the backoff of all earlier attempts |
| GetHelp.AskNeverExhausts | gethelp.go:193-207 | the loop fails only with the client's error or "no response"; "max retries exceeded" is unreachable; the total sleep is at most 2 + 4 seconds |
| GetHelp.AskRetriesEveryError | gethelp.go:191-197 | errors on the first two attempts, of any kind, are retried; the third attempt's outcome is returned after 6 seconds of sleep |
| GetHelp.AskSucceedsOnAttempt | gethelp.go:180-205 | after k errors, a completion with choices yields its first choice, after k + 1 attempts and the backoff of the k failures |
| GetHelp.AskStopsOnEmptyCompletion | gethelp.go:200-202 | a completion without choices ends the loop at once with "no response" |
| GetHelp.GetHelpTool.Name | gethelp.go:26-28 | the tool is named `get_help` |
| GetHelp.GetHelpTool.Description | gethelp.go:30-32 | the tool's fixed, non-empty description |
| GetHelp.GetHelpTool.Schema | gethelp.go:34-53 | the input schema is an object with string properties `question`, `summary`, `relevant_code`, of which exactly `question` and `summary` are required |
| GetHelp.GetHelpTool.SummaryPath | gethelp.go:128-131 | the configured summary path, or `./README.md` when it is empty |
| GetHelp.GetHelpTool.Model | gethelp.go:175-178 | the configured model, or `o3` when it is empty |
| GetHelp.GetHelpTool.LoadSummary | gethelp.go:127-145 | succeeds iff the effective path is readable, with that file's contents; otherwise it fails naming the path |
| GetHelp.GetHelpTool.AskOpenAI | gethelp.go:169-208 | the imperative loop returns exactly what `Ask` specifies, sleeps as long, and sends one identical request (effective model, prompt as the only user message) per attempt |
| GetHelp.GetHelpTool.AskedPrompt | gethelp.go:78-106 | upstream is asked iff the arguments are valid, the summary file is readable and the prompt fits; the prompt asked is then the template filled with the file's contents, the question and the code, at most 80,000 bytes |
| GetHelp.GetHelpTool.Invoke | gethelp.go:55-125 | the steps run in order and stop at the first failure, with `askOpenAI` run as the retry loop; the reply is `Call`'s; no request is sent unless upstream is asked, and then one request per attempt, each carrying the effective model and the prompt `AskedPrompt` names |
| GetHelp.GetHelpTool.Call | gethelp.go:55-125 | always exactly one text block; the missing-fields error iff question or summary is absent, empty or not a string; no error iff loading, prompting and asking all succeed, and then the block holds the answer; when the ask fails, its error is returned; every other error carries the "unavailable" text |
| GetHelp.GetHelpTool.InvalidArgumentsSkipSteps | gethelp.go:68-75 | invalid arguments give the fixed error block, whatever the files and the upstream |
| GetHelp.GetHelpTool.LoadFailureSkipsUpstream | gethelp.go:78-87 | an unreadable summary file gives the unavailable block and the load error, whatever the upstream |
| GetHelp.GetHelpTool.PromptFailureSkipsUpstream | gethelp.go:90-99 | an oversized prompt gives the unavailable block and the token-limit error, whatever the upstream |
| GetHelp.GetHelpTool.SummaryArgumentOnlyGates | gethelp.go:61-90 | the `summary` argument only has to be a non-empty string; the prompt uses the file, so any two such values give the same reply |
| Mcp.RpcResult.ToJson | main.go:57-117 | the initialize map holds the protocol version, the capabilities and `{name, version}`; the tools/list map holds one `{name, description, inputSchema}` object per entry, in order; a tools/call result holds the blocks' encodings as `content`, and an `isError: true` member iff the call failed |
| Mcp.Tool.Call | main.go:106-113 | get_help's content is passed on, and the call counts as failed exactly when get_help returns an error; any other tool gives its own outcome |
| Mcp.McpServer.constructor | main.go:43-51 | a new server has an empty registry, the given name and version, and the registry invariant |
| Mcp.McpServer.RegisterTool | main.go:53-55 | the tool is stored under its name, replacing any earlier tool of that name and leaving the others; the registry grows by one iff the name was new |
| Mcp.McpServer.HandleInitialize | main.go:57-65 | protocol version 2025-03-26, an empty tools capability and the server's own identity |
| Mcp.McpServer.HandleToolsList | main.go:67-81 | one entry per registered tool, each giving that tool's name, description and schema, with no name listed twice and none missing |
| Mcp.McpServer.HandleToolsCall | main.go:83-118 | undecodable params give "Invalid params", an unregistered name gives "Unknown tool" (both -32602); otherwise success with the tool's content, and `isError` iff the tool's call failed |
| Mcp.McpServer.ProcessRequest | main.go:120-151 | the response echoes the id with version 2.0, and exactly one of result and error is set; each method gets its handler's result; any other method gets "Method not found" (-32601) |
| Mcp.McpServer.HandleHTTP | main.go:177-215 | 405 iff the method is not POST; 400 iff a POST body does not decode; 503 with fixed bodies when get_help is missing or its call fails; otherwise 200 with the first text block as the answer, or an empty body when there is none |
| Scenarios.ListAfterRegisteringGetHelp | main_test.go:30-69 | after registering get_help, the registry has one tool and `tools/list` gives one entry named get_help with an object schema |
| Scenarios.RegisterTwiceKeepsOne | main.go:53-55 | registering two tools of the same name keeps one, the later |
| Scenarios.InitializeReportsIdentity | main_test.go:270-296 | `initialize` echoes the id and reports the protocol version and the constructor's name and version |
| Scenarios.CallUnknownToolKeepsId | main.go:97-104 | `tools/call` on an unregistered name is the "Unknown tool" error, with the request's id |
| Scenarios.MissingQuestionIsToolError | main_test.go:100-124 | calling get_help without a question is a successful RPC whose result is the missing-fields block marked `isError` |
| Scenarios.HelpToolAnswersFirstAttempt | main_test.go:249-268 | with a readable ./README.md of modest size and a first attempt that answers, get_help returns that answer and no error |
| Scenarios.HttpAnswersFromUpstream | main_test.go:249-268 | the same request sent to POST /get_help is answered with status 200 and that answer |

## Left out

- RunStdio (main.go:153-174): the newline-delimited stdin/stdout loop is I/O. Each decoded request goes to `ProcessRequest`, which is modelled. What happens after a decoding error is not modelled.
- Process start-up (main.go:217-272): the command-line flags, the choice between stdio and HTTP mode, and registering the tool. `Scenarios` uses the same wiring.
- JSON encoding and decoding: decoding is an oracle parameter, and encoding is the `ToJson` maps. The `{"answer": ...}` body is abstract, and so are numbers other than integers.
- Logging, the `Content-Type` header and the HTTP path: these do not change status or body.
- The file system: `files` is a map of the paths that open and read. Invalid UTF-8 in a file is not modelled, so contents are code points.
- The chat-completion client, `OPENAI_API_KEY`, the network and `time.Sleep`: each attempt's outcome is an `Upstream` entry, and the sleeps are summed in a ghost counter.
- The three-minute context: the loop never checks it, so a cancelled context appears only as client errors.
- GetHelp.HelpError.Message: every unreadable summary gives the text of a missing file on Linux. An open that succeeds followed by a failed read (a directory, say, gives "read <path>: is a directory") is not told apart from a missing file.
- A non-string `text` in a content block, which makes the Go handler panic: blocks always hold strings here.
- Tools other than get_help: a tool's reply is fixed per tool value, not computed.
- Mcp.McpServer.HandleToolsList: the order of entries follows Go's map iteration, which is unspecified, so the contract leaves it open.
