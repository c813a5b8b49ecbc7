/**
 * The get_help tool of gethelp.go: argument validation, loading the project
 * summary, rendering the prompt under a size guard, and asking the
 * chat-completion service with a fixed retry schedule.
 *
 * The file system and the chat-completion client are parameters: `files`
 * maps each readable path to its contents, and an `Upstream` holds the
 * client's outcome for each of the at most three attempts.
 */
module GetHelp {
  import opened Wrappers
  import opened JsonValue
  import opened Utf8

  const ToolName := "get_help"
  const ToolDescription := "Escalate difficult problems to OpenAI for expert guidance"

  /** The text block returned when `question` or `summary` is missing. */
  const MissingFieldsText := "Error: Missing required fields: question and summary"
  /** The text block returned when loading, prompting or the upstream call fails. */
  const UnavailableText := "The architect is currently unavailable. Please try again later."

  const DefaultSummaryPath := "./README.md"
  const DefaultModel := "o3"
  const UserRole := "user"

  /** 20,000 tokens at roughly four bytes per token. */
  const MaxPromptBytes := 80000

  const MaxRetries := 3
  /** Sleep before the next attempt, indexed by the failed attempt. */
  const BackoffSeconds: seq<nat> := [2, 4, 8]

  /** The part of the prompt-size error that callers look for. */
  const TokenLimitText := "20,000 token limit"

  /** The errors the tool returns. */
  datatype HelpError =
    | MissingRequiredFields
    | SummaryUnavailable(path: string)
    | PromptTooLarge
    | UpstreamFailed(cause: string)
    | NoResponse
    | MaxRetriesExceeded
  {
    /**
     * The Go error text: the client's own error is passed through, the
     * open error names the path, and the size error names the token limit.
     */
    function Message(): (m: string)
      ensures UpstreamFailed? ==> m == cause
      ensures !UpstreamFailed? ==> m != ""
      ensures SummaryUnavailable? ==> OccursAt(path, m, |"open "|)
      ensures PromptTooLarge? ==> OccursAt(TokenLimitText, m, |"prompt exceeds "|)
    {
      match this
      case MissingRequiredFields => "missing required fields"
      case SummaryUnavailable(path) =>
        OccursBetween("open ", path, ": no such file or directory");
        "open " + path + ": no such file or directory"
      case PromptTooLarge =>
        OccursBetween("prompt exceeds ", TokenLimitText, "");
        "prompt exceeds " + TokenLimitText + ""
      case UpstreamFailed(cause) => cause
      case NoResponse => "no response from OpenAI"
      case MaxRetriesExceeded => "max retries exceeded"
    }
  }

  /** What the chat-completion client gives back for one attempt. */
  datatype Attempt =
    | ClientError(cause: string)
    | Completion(choices: seq<string>)

  /** One stubbed client outcome for each attempt the retry loop may make. */
  type Upstream = s: seq<Attempt> | |s| == MaxRetries
    witness [ClientError(""), ClientError(""), ClientError("")]

  datatype ChatMessage = ChatMessage(role: string, content: string)

  /** The request sent on every attempt. */
  datatype ChatRequest = ChatRequest(model: string, messages: seq<ChatMessage>)

  /** What `Call` returns: the content blocks and the error, nil when absent. */
  datatype CallReply = CallReply(content: seq<ContentBlock>, err: Option<HelpError>)

  /** The whole run of the retry loop: its result, how many attempts were made and how long it slept. */
  datatype AskOutcome = AskOutcome(result: Result<string, HelpError>, attempts: nat, delaySeconds: nat)

  // ---------------------------------------------------------------------
  // Arguments
  // ---------------------------------------------------------------------

  /** `arguments[key].(string)`: the string stored under `key`, or "" when it is absent or not a string. */
  function StringArgument(arguments: map<string, Json>, key: string): (r: string)
    ensures key in arguments && arguments[key].JString? ==> r == arguments[key].str
    ensures r != "" ==> key in arguments && arguments[key] == JString(r)
  {
    if key in arguments && arguments[key].JString? then arguments[key].str else ""
  }

  /** Both required arguments are strings and neither is empty. */
  predicate HasRequiredFields(arguments: map<string, Json>) {
    StringArgument(arguments, "question") != "" && StringArgument(arguments, "summary") != ""
  }

  // ---------------------------------------------------------------------
  // Prompt
  // ---------------------------------------------------------------------

  /** The role the prompt casts the model in. */
  const Role := "software architect"
  /** The template up to the summary: the instruction line and the opening tag. */
  const IntroLine := "As a " + Role + ", provide help with this issue:"
  const PromptIntro := IntroLine + "\n\n<summary>\n"
  /** Between the summary and the question: the closing tag, a rule and the question label. */
  const QuestionLead := "\n</summary>\n\n---\n**Question:** "
  /** Between the question and the code. */
  const CodeLead := "\n\n**Relevant Code:** "

  /** Bytes the template adds around the three substituted fields: 66 + 31 + 21. */
  const TemplateOverhead := 118

  /**
   * `fmt.Sprintf(template, summary, question, relevantCode)`: the template
   * with the three fields substituted, in order and unaltered.
   */
  function Render(summary: string, question: string, relevantCode: string): (r: string)
    ensures |r| == |PromptIntro| + |summary| + |QuestionLead| + |question| + |CodeLead| + |relevantCode|
    ensures r[..|PromptIntro|] == PromptIntro
  {
    var r := PromptIntro + summary + QuestionLead + question + CodeLead + relevantCode;
    assert r == PromptIntro + (summary + QuestionLead + question + CodeLead + relevantCode);
    r
  }

  /** `needle` occurs in `hay` starting at index `at`. */
  predicate OccursAt(needle: string, hay: string, at: nat) {
    at + |needle| <= |hay| && hay[at..at + |needle|] == needle
  }

  lemma OccursBetween(before: string, needle: string, after: string)
    ensures OccursAt(needle, before + needle + after, |before|)
  {
    assert (before + needle + after)[|before|..|before| + |needle|] == needle;
  }

  lemma OccursInPrefix(needle: string, hay: string, at: nat, more: string)
    requires OccursAt(needle, hay, at)
    ensures OccursAt(needle, hay + more, at)
  {
    assert (hay + more)[at..at + |needle|] == hay[at..at + |needle|];
  }

  /** In `p1 + s + p2 + q + p3 + c` the pieces `s`, `q` and `c` stand at their offsets. */
  lemma PiecesOccur(p1: string, s: string, p2: string, q: string, p3: string, c: string)
    ensures var w := p1 + s + p2 + q + p3 + c;
      && OccursAt(s, w, |p1|)
      && OccursAt(q, w, |p1| + |s| + |p2|)
      && OccursAt(c, w, |w| - |c|)
  {
    var w := p1 + s + p2 + q + p3 + c;
    assert w == p1 + s + (p2 + q + p3 + c);
    OccursBetween(p1, s, p2 + q + p3 + c);
    assert w == (p1 + s + p2) + q + (p3 + c);
    OccursBetween(p1 + s + p2, q, p3 + c);
    assert w == (p1 + s + p2 + q + p3) + c + "";
    OccursBetween(p1 + s + p2 + q + p3, c, "");
  }

  /** What occurs in `p1` occurs at the same place in `p1 + s + p2 + q + p3 + c`. */
  lemma PrefixOccurs(needle: string, at: nat, p1: string, s: string, p2: string, q: string, p3: string, c: string)
    requires OccursAt(needle, p1, at)
    ensures OccursAt(needle, p1 + s + p2 + q + p3 + c, at)
  {
    assert p1 + s + p2 + q + p3 + c == p1 + (s + p2 + q + p3 + c);
    OccursInPrefix(needle, p1, at, s + p2 + q + p3 + c);
  }

  /** The rendered prompt's byte length is the template overhead plus the three fields. */
  lemma RenderByteLen(summary: string, question: string, relevantCode: string)
    ensures ByteLen(Render(summary, question, relevantCode))
         == TemplateOverhead + ByteLen(summary) + ByteLen(question) + ByteLen(relevantCode)
  {
    TemplateOverheadExact();
    ByteLenAppend(PromptIntro, summary);
    ByteLenAppend(PromptIntro + summary, QuestionLead);
    ByteLenAppend(PromptIntro + summary + QuestionLead, question);
    ByteLenAppend(PromptIntro + summary + QuestionLead + question, CodeLead);
    ByteLenAppend(PromptIntro + summary + QuestionLead + question + CodeLead, relevantCode);
  }

  /** The role, the summary, the question and the code all stand verbatim in `prompt`, at their template offsets. */
  predicate HoldsVerbatim(prompt: string, summary: string, question: string, relevantCode: string) {
    && OccursAt(Role, prompt, 5)
    && OccursAt(summary, prompt, |PromptIntro|)
    && OccursAt(question, prompt, |PromptIntro| + |summary| + |QuestionLead|)
    && |relevantCode| <= |prompt| && OccursAt(relevantCode, prompt, |prompt| - |relevantCode|)
  }

  /** "As a " precedes the role in the template's first line. */
  lemma RoleInIntro()
    ensures OccursAt(Role, PromptIntro, 5)
  {
    OccursBetween("As a ", Role, ", provide help with this issue:");
    OccursInPrefix(Role, IntroLine, 5, "\n\n<summary>\n");
  }

  lemma RenderVerbatim(summary: string, question: string, relevantCode: string)
    ensures HoldsVerbatim(Render(summary, question, relevantCode), summary, question, relevantCode)
  {
    var prompt := Render(summary, question, relevantCode);
    PiecesOccur(PromptIntro, summary, QuestionLead, question, CodeLead, relevantCode);
    assert OccursAt(summary, prompt, |PromptIntro|);
    assert OccursAt(question, prompt, |PromptIntro| + |summary| + |QuestionLead|);
    assert OccursAt(relevantCode, prompt, |prompt| - |relevantCode|);
    RoleInIntro();
    PrefixOccurs(Role, 5, PromptIntro, summary, QuestionLead, question, CodeLead, relevantCode);
  }

  /** Every literal part of the template is ASCII. */
  lemma TemplateIsAscii()
    ensures IsAscii(PromptIntro) && IsAscii(QuestionLead) && IsAscii(CodeLead)
  {
    AsciiAppend("As a ", Role);
    AsciiAppend("As a " + Role, ", provide help with this issue:");
    AsciiAppend(IntroLine, "\n\n<summary>\n");
  }

  /** The template's byte length is its length: 66 + 31 + 21 = 118 bytes. */
  lemma TemplateOverheadExact()
    ensures ByteLen(PromptIntro) + ByteLen(QuestionLead) + ByteLen(CodeLead) == TemplateOverhead
  {
    TemplateIsAscii();
    AsciiByteLen(PromptIntro);
    AsciiByteLen(QuestionLead);
    AsciiByteLen(CodeLead);
  }

  /**
   * `buildPrompt`: substitutes the fields verbatim and rejects, never
   * truncates, a prompt of more than MaxPromptBytes bytes.
   */
  function BuildPrompt(summary: string, question: string, relevantCode: string): (r: Result<string, HelpError>)
    ensures r.Failure? <==> TemplateOverhead + ByteLen(summary) + ByteLen(question) + ByteLen(relevantCode) > MaxPromptBytes
    ensures r.Failure? ==> r.error == PromptTooLarge
    ensures r.Success? ==> r.value == Render(summary, question, relevantCode)
    ensures r.Success? ==> ByteLen(r.value) <= MaxPromptBytes
    ensures r.Success? ==> HoldsVerbatim(r.value, summary, question, relevantCode)
  {
    var prompt := Render(summary, question, relevantCode);
    RenderByteLen(summary, question, relevantCode);
    RenderVerbatim(summary, question, relevantCode);
    if ByteLen(prompt) > MaxPromptBytes then Failure(PromptTooLarge) else Success(prompt)
  }

  /** A summary longer than the limit is rejected whatever the other fields. */
  lemma OversizedSummaryRejected(summary: string, question: string, relevantCode: string)
    requires |summary| > MaxPromptBytes
    ensures BuildPrompt(summary, question, relevantCode) == Failure(PromptTooLarge)
  {
    ByteLenBounds(summary);
  }

  /** For ASCII fields Go's byte count is the character count. */
  lemma AsciiPromptLimit(summary: string, question: string, relevantCode: string)
    requires IsAscii(summary) && IsAscii(question) && IsAscii(relevantCode)
    ensures BuildPrompt(summary, question, relevantCode).Failure?
        <==> TemplateOverhead + |summary| + |question| + |relevantCode| > MaxPromptBytes
  {
    AsciiByteLen(summary);
    AsciiByteLen(question);
    AsciiByteLen(relevantCode);
  }

  /** Fields of at most 19,000 characters in all always fit, whatever their code points. */
  lemma ShortFieldsFit(summary: string, question: string, relevantCode: string)
    requires |summary| + |question| + |relevantCode| <= 19000
    ensures BuildPrompt(summary, question, relevantCode).Success?
  {
    ByteLenBounds(summary);
    ByteLenBounds(question);
    ByteLenBounds(relevantCode);
  }

  // ---------------------------------------------------------------------
  // Retry loop
  // ---------------------------------------------------------------------

  /** Total sleep after the first `k` attempts failed. */
  function DelayBefore(k: nat): nat
    requires k <= |BackoffSeconds|
  {
    if k == 0 then 0 else DelayBefore(k - 1) + BackoffSeconds[k - 1]
  }

  /** The result of an attempt that ends the loop. */
  function Settle(a: Attempt): Result<string, HelpError> {
    match a
    case ClientError(cause) => Failure(UpstreamFailed(cause))
    case Completion(choices) =>
      if |choices| == 0 then Failure(NoResponse) else Success(choices[0])
  }

  /**
   * The loop of `askOpenAI` from attempt `attempt` on: an error before the
   * last attempt sleeps and retries, anything else ends the loop.
   */
  function AskFrom(upstream: Upstream, attempt: nat): AskOutcome
    requires attempt <= MaxRetries
    decreases MaxRetries - attempt
  {
    if attempt == MaxRetries then
      AskOutcome(Failure(MaxRetriesExceeded), attempt, 0)
    else if upstream[attempt].ClientError? && attempt < MaxRetries - 1 then
      var rest := AskFrom(upstream, attempt + 1);
      rest.(delaySeconds := BackoffSeconds[attempt] + rest.delaySeconds)
    else
      AskOutcome(Settle(upstream[attempt]), attempt + 1, 0)
  }

  /** The whole retry loop. */
  function Ask(upstream: Upstream): AskOutcome {
    AskFrom(upstream, 0)
  }

  lemma {:induction false} AskFromSettles(upstream: Upstream, k: nat)
    requires k < MaxRetries
    ensures var o := AskFrom(upstream, k);
      && k + 1 <= o.attempts <= MaxRetries
      && (forall j :: k <= j < o.attempts - 1 ==> upstream[j].ClientError?)
      && (o.attempts < MaxRetries ==> !upstream[o.attempts - 1].ClientError?)
      && o.result == Settle(upstream[o.attempts - 1])
      && DelayBefore(k) + o.delaySeconds == DelayBefore(o.attempts - 1)
    decreases MaxRetries - k
  {
    if upstream[k].ClientError? && k < MaxRetries - 1 {
      AskFromSettles(upstream, k + 1);
    }
  }

  /**
   * The loop stops at the first attempt that is not a client error, or at
   * the third attempt; its result is that attempt's, and it slept the
   * backoff of every earlier attempt.
   */
  lemma AskSettlesAtFirstNonError(upstream: Upstream)
    ensures var o := Ask(upstream);
      && 1 <= o.attempts <= MaxRetries
      && (forall j :: 0 <= j < o.attempts - 1 ==> upstream[j].ClientError?)
      && (o.attempts < MaxRetries ==> !upstream[o.attempts - 1].ClientError?)
      && o.result == Settle(upstream[o.attempts - 1])
      && o.delaySeconds == DelayBefore(o.attempts - 1)
  {
    AskFromSettles(upstream, 0);
  }

  /**
   * The loop fails only with a client error or "no response": "max retries
   * exceeded" is never returned, and the 8-second entry is never slept.
   */
  lemma AskNeverExhausts(upstream: Upstream)
    ensures Ask(upstream).result.Failure? ==>
      Ask(upstream).result.error.UpstreamFailed? || Ask(upstream).result.error == NoResponse
    ensures Ask(upstream).delaySeconds <= BackoffSeconds[0] + BackoffSeconds[1]
  {
    AskSettlesAtFirstNonError(upstream);
  }

  /** Errors on the first two attempts, of any kind, are retried; the third one is returned as is after 6 seconds. */
  lemma AskRetriesEveryError(upstream: Upstream)
    requires upstream[0].ClientError? && upstream[1].ClientError?
    ensures Ask(upstream).attempts == 3
    ensures Ask(upstream).delaySeconds == 6
    ensures Ask(upstream).result == Settle(upstream[2])
  {
    AskSettlesAtFirstNonError(upstream);
  }

  /** Success on attempt `k` happens after exactly the backoff of the `k` failed attempts. */
  lemma AskSucceedsOnAttempt(upstream: Upstream, k: nat)
    requires k < MaxRetries
    requires forall j :: 0 <= j < k ==> upstream[j].ClientError?
    requires upstream[k].Completion? && |upstream[k].choices| > 0
    ensures Ask(upstream).result == Success(upstream[k].choices[0])
    ensures Ask(upstream).attempts == k + 1
    ensures Ask(upstream).delaySeconds == DelayBefore(k)
  {
    AskSettlesAtFirstNonError(upstream);
  }

  /** A response without choices ends the loop at once. */
  lemma AskStopsOnEmptyCompletion(upstream: Upstream, k: nat)
    requires k < MaxRetries
    requires forall j :: 0 <= j < k ==> upstream[j].ClientError?
    requires upstream[k] == Completion([])
    ensures Ask(upstream).result == Failure(NoResponse)
    ensures Ask(upstream).attempts == k + 1
  {
    AskSettlesAtFirstNonError(upstream);
  }

  // ---------------------------------------------------------------------
  // The tool
  // ---------------------------------------------------------------------

  function Property(description: string): Json {
    JObject(map["type" := JString("string"), "description" := JString(description)])
  }

  /** `GetHelpTool`: built once from the summary-path and model flags, never changed. */
  datatype GetHelpTool = GetHelpTool(summaryPath: string, modelName: string) {

    /** The name the tool is registered and called under. */
    function Name(): (n: string)
      ensures n == "get_help"
    {
      ToolName
    }

    function Description(): (d: string)
      ensures d == ToolDescription && d != ""
    {
      ToolDescription
    }

    /** The input schema: an object whose only required properties are `question` and `summary`. */
    function Schema(): (r: Json)
      ensures r.JObject? && r.fields.Keys == {"type", "properties", "required"}
      ensures r.fields["type"] == JString("object")
      ensures r.fields["required"] == JArray([JString("question"), JString("summary")])
      ensures var props := r.fields["properties"];
        && props.JObject? && props.fields.Keys == {"question", "summary", "relevant_code"}
        && forall p :: p in props.fields ==>
             props.fields[p].JObject? && "type" in props.fields[p].fields
             && props.fields[p].fields["type"] == JString("string")
    {
      JObject(map[
        "type" := JString("object"),
        "properties" := JObject(map[
          "question" := Property("The specific question or problem you need help with"),
          "summary" := Property("Brief summary of your project context"),
          "relevant_code" := Property("Any relevant code snippets (optional)")
        ]),
        "required" := JArray([JString("question"), JString("summary")])
      ])
    }

    /** The summary file read: the configured path, or ./README.md when none is configured. */
    function SummaryPath(): (p: string)
      ensures p != ""
      ensures summaryPath != "" ==> p == summaryPath
      ensures summaryPath == "" ==> p == DefaultSummaryPath
    {
      if summaryPath == "" then DefaultSummaryPath else summaryPath
    }

    /** The model asked: the configured name, or "o3" when none is configured. */
    function Model(): (m: string)
      ensures m != ""
      ensures modelName != "" ==> m == modelName
      ensures modelName == "" ==> m == DefaultModel
    {
      if modelName == "" then DefaultModel else modelName
    }

    /** `loadSummary`: the contents of the summary file, or the error of opening it. */
    function LoadSummary(files: map<string, string>): (r: Result<string, HelpError>)
      ensures r.Success? <==> SummaryPath() in files
      ensures r.Success? ==> r.value == files[SummaryPath()]
      ensures r.Failure? ==> r.error == SummaryUnavailable(SummaryPath())
    {
      var path := SummaryPath();
      if path in files then Success(files[path]) else Failure(SummaryUnavailable(path))
    }

    /** The completion request every attempt sends: the effective model and the prompt as the only user message. */
    function Request(prompt: string): ChatRequest {
      ChatRequest(Model(), [ChatMessage(UserRole, prompt)])
    }

    /**
     * `askOpenAI`: up to three attempts; after a failed first or second
     * attempt it sleeps 2 or 4 seconds and tries again. `delaySeconds`
     * accumulates the sleeps and `sent` records the requests made.
     */
    method AskOpenAI(prompt: string, upstream: Upstream)
      returns (answer: Result<string, HelpError>, ghost delaySeconds: nat, ghost sent: seq<ChatRequest>)
      ensures answer == Ask(upstream).result
      ensures delaySeconds == Ask(upstream).delaySeconds
      ensures |sent| == Ask(upstream).attempts
      ensures forall i :: 0 <= i < |sent| ==> sent[i] == Request(prompt)
    {
      var model := modelName;
      if model == "" {
        model := DefaultModel;
      }
      delaySeconds, sent := 0, [];
      for attempt := 0 to MaxRetries
        invariant |sent| == attempt
        invariant forall i :: 0 <= i < attempt ==> sent[i] == Request(prompt)
        invariant Ask(upstream).result == AskFrom(upstream, attempt).result
        invariant Ask(upstream).attempts == AskFrom(upstream, attempt).attempts
        invariant Ask(upstream).delaySeconds == delaySeconds + AskFrom(upstream, attempt).delaySeconds
      {
        var reply := upstream[attempt];
        sent := sent + [ChatRequest(model, [ChatMessage(UserRole, prompt)])];
        if reply.ClientError? {
          if attempt < MaxRetries - 1 {
            delaySeconds := delaySeconds + BackoffSeconds[attempt];
            continue;
          }
          answer := Failure(UpstreamFailed(reply.cause));
          return;
        }
        if |reply.choices| == 0 {
          answer := Failure(NoResponse);
          return;
        }
        answer := Success(reply.choices[0]);
        return;
      }
      answer := Failure(MaxRetriesExceeded);
    }

    /**
     * The prompt `Call` sends upstream: the template filled with the summary
     * file's contents, the question and the code, when every earlier step
     * succeeds; None when `Call` stops before asking.
     */
    function AskedPrompt(arguments: map<string, Json>, files: map<string, string>): (p: Option<string>)
      ensures p.Some? <==>
        && HasRequiredFields(arguments)
        && LoadSummary(files).Success?
        && BuildPrompt(LoadSummary(files).value, StringArgument(arguments, "question"),
                       StringArgument(arguments, "relevant_code")).Success?
      ensures p.Some? ==>
        var question := StringArgument(arguments, "question");
        var relevantCode := StringArgument(arguments, "relevant_code");
        && p.value == Render(files[SummaryPath()], question, relevantCode)
        && ByteLen(p.value) <= MaxPromptBytes
        && HoldsVerbatim(p.value, files[SummaryPath()], question, relevantCode)
    {
      if !HasRequiredFields(arguments) then None
      else match LoadSummary(files)
        case Failure(_) => None
        case Success(projectSummary) =>
          match BuildPrompt(projectSummary, StringArgument(arguments, "question"),
                            StringArgument(arguments, "relevant_code"))
          case Failure(_) => None
          case Success(prompt) => Some(prompt)
    }

    /**
     * `Call` as it runs: each step in turn, upstream asked through the retry
     * loop of `AskOpenAI`. Its reply is `Call`'s, and every request it sends
     * carries the effective model and the prompt `AskedPrompt` names.
     */
    method Invoke(arguments: map<string, Json>, files: map<string, string>, upstream: Upstream)
      returns (reply: CallReply, ghost sent: seq<ChatRequest>)
      ensures reply == Call(arguments, files, upstream)
      ensures AskedPrompt(arguments, files).None? ==> sent == []
      ensures AskedPrompt(arguments, files).Some? ==>
        && |sent| == Ask(upstream).attempts
        && forall i :: 0 <= i < |sent| ==> sent[i] == Request(AskedPrompt(arguments, files).value)
    {
      sent := [];
      var question := StringArgument(arguments, "question");
      var summary := StringArgument(arguments, "summary");
      var relevantCode := StringArgument(arguments, "relevant_code");
      if question == "" || summary == "" {
        reply := CallReply([TextBlock(MissingFieldsText)], Some(MissingRequiredFields));
        return;
      }
      var loaded := LoadSummary(files);
      if loaded.Failure? {
        reply := CallReply([TextBlock(UnavailableText)], Some(loaded.error));
        return;
      }
      var built := BuildPrompt(loaded.value, question, relevantCode);
      if built.Failure? {
        reply := CallReply([TextBlock(UnavailableText)], Some(built.error));
        return;
      }
      var answer;
      ghost var delaySeconds;
      answer, delaySeconds, sent := AskOpenAI(built.value, upstream);
      if answer.Failure? {
        reply := CallReply([TextBlock(UnavailableText)], Some(answer.error));
        return;
      }
      reply := CallReply([TextBlock(answer.value)], None);
    }

    /**
     * `Call`: validate the arguments, then load the summary, build the
     * prompt and ask upstream, stopping at the first step that fails.
     * Every exit returns exactly one text block.
     */
    function Call(arguments: map<string, Json>, files: map<string, string>, upstream: Upstream): (r: CallReply)
      ensures |r.content| == 1 && r.content[0].kind == "text"
      ensures r.err == Some(MissingRequiredFields) <==> !HasRequiredFields(arguments)
      ensures !HasRequiredFields(arguments) ==> r.content[0].text == MissingFieldsText
      ensures HasRequiredFields(arguments) && r.err.Some? ==> r.content[0].text == UnavailableText
      ensures r.err.None? <==>
        && HasRequiredFields(arguments)
        && LoadSummary(files).Success?
        && BuildPrompt(LoadSummary(files).value, StringArgument(arguments, "question"),
                       StringArgument(arguments, "relevant_code")).Success?
        && Ask(upstream).result.Success?
      ensures r.err.None? ==> r.content[0].text == Ask(upstream).result.value
      ensures AskedPrompt(arguments, files).Some? && Ask(upstream).result.Failure? ==>
        r.err == Some(Ask(upstream).result.error)
    {
      var question := StringArgument(arguments, "question");
      var summary := StringArgument(arguments, "summary");
      var relevantCode := StringArgument(arguments, "relevant_code");
      if question == "" || summary == "" then
        CallReply([TextBlock(MissingFieldsText)], Some(MissingRequiredFields))
      else
        match LoadSummary(files)
        case Failure(e) => CallReply([TextBlock(UnavailableText)], Some(e))
        case Success(projectSummary) =>
          match BuildPrompt(projectSummary, question, relevantCode)
          case Failure(e) => CallReply([TextBlock(UnavailableText)], Some(e))
          case Success(prompt) =>
            AskNeverExhausts(upstream);
            match Ask(upstream).result
            case Failure(e) => CallReply([TextBlock(UnavailableText)], Some(e))
            case Success(answer) => CallReply([TextBlock(answer)], None)
    }

    /** Missing or empty required fields: the fixed error block, without reading any file or calling upstream. */
    lemma InvalidArgumentsSkipSteps(arguments: map<string, Json>, files: map<string, string>, upstream: Upstream,
                                    files': map<string, string>, upstream': Upstream)
      requires !HasRequiredFields(arguments)
      ensures Call(arguments, files, upstream) == CallReply([TextBlock(MissingFieldsText)], Some(MissingRequiredFields))
      ensures Call(arguments, files, upstream) == Call(arguments, files', upstream')
    {
    }

    /** A summary file that cannot be read: the unavailable block and the load error; upstream is not consulted. */
    lemma LoadFailureSkipsUpstream(arguments: map<string, Json>, files: map<string, string>, upstream: Upstream,
                                   upstream': Upstream)
      requires HasRequiredFields(arguments) && LoadSummary(files).Failure?
      ensures Call(arguments, files, upstream) == CallReply([TextBlock(UnavailableText)], Some(SummaryUnavailable(SummaryPath())))
      ensures Call(arguments, files, upstream) == Call(arguments, files, upstream')
    {
    }

    /** An oversized prompt: the unavailable block and PromptTooLarge; upstream is not consulted. */
    lemma PromptFailureSkipsUpstream(arguments: map<string, Json>, files: map<string, string>, upstream: Upstream,
                                     upstream': Upstream)
      requires HasRequiredFields(arguments) && LoadSummary(files).Success?
      requires BuildPrompt(LoadSummary(files).value, StringArgument(arguments, "question"),
                           StringArgument(arguments, "relevant_code")).Failure?
      ensures Call(arguments, files, upstream) == CallReply([TextBlock(UnavailableText)], Some(PromptTooLarge))
      ensures Call(arguments, files, upstream) == Call(arguments, files, upstream')
    {
    }

    /**
     * The `summary` argument only has to be a non-empty string: the prompt is
     * built from the summary file, so two such arguments give the same reply.
     */
    lemma SummaryArgumentOnlyGates(arguments: map<string, Json>, summary': string,
                                   files: map<string, string>, upstream: Upstream)
      requires HasRequiredFields(arguments) && summary' != ""
      ensures Call(arguments["summary" := JString(summary')], files, upstream) == Call(arguments, files, upstream)
    {
      var arguments' := arguments["summary" := JString(summary')];
      assert StringArgument(arguments', "question") == StringArgument(arguments, "question");
      assert StringArgument(arguments', "relevant_code") == StringArgument(arguments, "relevant_code");
    }
  }
}
