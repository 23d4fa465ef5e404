/** The ask-human tool server: the `ask_human` formatter, the `list_tools`
    catalogue and the `call_tool` dispatch. The two awaited progress sends of
    `call_tool` are modelled as appends to an outbound trace, so a call is a
    pure function from (tool name, arguments, request metadata) to the
    notifications it sends and its one terminal outcome. */
module AskHumanServer {
  import opened Wrappers
  import opened McpTypes
  import Strings

  /** The string-backed enumeration of tool names; it has one member. */
  datatype HumanTool = AskHumanTool

  /** The string value of an enumeration member. */
  function ToolName(t: HumanTool): string {
    match t
    case AskHumanTool => "ask_human"
  }

  /** The `match name` of `call_tool`: the member whose value equals `name`,
      if any. A string-backed member compares equal to its value. */
  function ParseToolName(name: string): (r: Option<HumanTool>)
    ensures r.Some? ==> ToolName(r.value) == name
    ensures r.None? ==> forall t: HumanTool :: ToolName(t) != name
  {
    if name == ToolName(AskHumanTool) then Some(AskHumanTool) else None
  }

  /** Fixed texts of the server. */
  const Greeting: string := "hello, I am human!, you question is: "
  const AnswerPrefix: string := "Human answer:\n"
  const Description: string := "Ask any question to real human"
  const QuestionKey: string := "question"

  /** The input schema of the tool's argument model: a single required
      string field `question`. */
  const AskHumanSchema: ObjectSchema :=
    ObjectSchema("AskHuman", [Property(QuestionKey, JsonString, true)])

  /** The stand-in human: a greeting followed by the question verbatim, so
      the question can always be read back from the reply. */
  function AskHuman(question: string): (r: string)
    ensures Strings.StripPrefix(Greeting, r) == Some(question)
    ensures |r| == |Greeting| + |question|
  {
    Strings.StripPrefixConcat(Greeting, question);
    Greeting + question
  }

  /** The tool catalogue: exactly one descriptor, for `ask_human`. Every
      advertised name is one `call_tool` dispatches, and no other. */
  function ListTools(): (tools: seq<Tool>)
    ensures |tools| == 1
    ensures tools[0].name == "ask_human"
    ensures tools[0].description == "Ask any question to real human"
    ensures tools[0].inputSchema == AskHumanSchema
    ensures UniqueNames(tools)
    ensures forall i :: 0 <= i < |tools| ==> ParseToolName(tools[i].name).Some?
  {
    [Tool(ToolName(AskHumanTool), Description, AskHumanSchema)]
  }

  /** The exceptions `call_tool` raises. */
  datatype Fault =
    | ValueError(message: string)   // no tool of that name
    | KeyError(key: string)         // a missing argument

  /** The terminal outcome of one call: the content list, or the exception. */
  datatype Outcome = Ok(content: seq<TextContent>) | Err(fault: Fault)

  /** What one call produces: the notifications sent, in order, then the
      outcome. */
  datatype Reply = Reply(trace: seq<ProgressNotification>, outcome: Outcome)

  /** The value of `progress_token` once the first `if` condition has been
      evaluated: still None when the metadata is absent (the `and`
      short-circuits), otherwise the metadata's token, itself maybe None.
      It is truthy exactly when the first `if` held, which is why the second
      `if` agrees with the first. */
  function BoundToken(meta: Option<Meta>): (t: Option<Token>)
    ensures Truthy(t) <==> Announces(meta)
  {
    match meta
    case None => None
    case Some(m) => m.progressToken
  }

  /** True iff the call carries a usable progress token: metadata present
      and its token truthy. */
  predicate Announces(meta: Option<Meta>) {
    meta.Some? && Truthy(meta.value.progressToken)
  }

  /** The notifications sent by a successful `ask_human` call: the first
      `if` sends the half-way report when the metadata is present and the
      token truthy; the second sends the completion report when the bound
      token is truthy. The two conditions agree, so both reports are sent
      or neither is. */
  function ProgressTrace(meta: Option<Meta>): (sent: seq<ProgressNotification>)
    ensures |sent| == 0 || |sent| == 2
    ensures |sent| == 2 <==> Announces(meta)
    ensures sent != [] ==> ProgressSequence(sent, meta.value.progressToken.value)
    ensures |sent| == 2 ==> sent[0].progress == 0.5 && sent[1].progress == 1.0
  {
    var progressToken := BoundToken(meta);
    var none: seq<ProgressNotification> := [];
    var first := if meta.Some? && Truthy(progressToken)
      then none + [ProgressNotification(progressToken.value, 0.5, 1.0)]
      else none;
    var both := if Truthy(progressToken)
      then first + [ProgressNotification(progressToken.value, 1.0, 1.0)]
      else first;
    both
  }

  /** The text of the one content item: a header line, then the answer,
      which can be read back from it. */
  function AnswerText(status: string): (text: string)
    ensures Strings.StripPrefix(AnswerPrefix, text) == Some(status)
  {
    Strings.StripPrefixConcat(AnswerPrefix, status);
    AnswerPrefix + status
  }

  /** `call_tool`. Unknown names raise before anything is sent; a missing
      `question` raises at the lookup, also before anything is sent. With a
      truthy token the call sends a half-way and then a completion
      notification, and returns one text item holding the answer. */
  function CallTool(name: string, arguments: map<string, string>, meta: Option<Meta>): (r: Reply)
    // the two failure paths: nothing is sent
    ensures ParseToolName(name).None? ==>
      r == Reply([], Err(ValueError("Unknown tool: " + name)))
    ensures ParseToolName(name).Some? && QuestionKey !in arguments ==>
      r == Reply([], Err(KeyError(QuestionKey)))
    // success exactly when the tool is known and the argument present
    ensures r.outcome.Ok? <==> ParseToolName(name).Some? && QuestionKey in arguments
    // notifications only on the success path, and then zero or two
    ensures r.trace != [] ==> r.outcome.Ok?
    ensures |r.trace| == 0 || |r.trace| == 2
    ensures |r.trace| == 2 <==> r.outcome.Ok? && Announces(meta)
    ensures r.trace != [] ==> ProgressSequence(r.trace, meta.value.progressToken.value)
    // the one text item, which reads back as the question
    ensures r.outcome.Ok? ==>
      && |r.outcome.content| == 1
      && r.outcome.content[0].contentType == "text"
      && Strings.StripPrefix(AnswerPrefix, r.outcome.content[0].text) == Some(AskHuman(arguments[QuestionKey]))
  {
    match ParseToolName(name)
    case None =>
      Reply([], Err(ValueError("Unknown tool: " + name)))
    case Some(AskHumanTool) =>
      if QuestionKey !in arguments then
        Reply([], Err(KeyError(QuestionKey)))
      else
        var status := AskHuman(arguments[QuestionKey]);
        var sent := ProgressTrace(meta);
        Reply(sent, Ok([TextContent("text", AnswerText(status))]))
  }
}
