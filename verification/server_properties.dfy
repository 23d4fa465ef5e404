/** Properties of the ask-human server that relate several of its parts:
    the catalogue against the dispatch, the schema against the argument
    lookup, the reply texts against the question, and the outcome against
    the request metadata. */
module AskHumanServerProperties {
  import opened Wrappers
  import opened McpTypes
  import opened AskHumanServer
  import Strings

  /** A client's reading of a result text: strip the header line, then the
      greeting; what remains is the question that was asked. */
  function ReadQuestion(text: string): Option<string> {
    match Strings.StripPrefix(AnswerPrefix, text)
    case None => None
    case Some(status) => Strings.StripPrefix(Greeting, status)
  }

  /** The formatter's output starts with the greeting and ends with the
      question, and distinct questions give distinct outputs. */
  lemma AskHumanEndsWithQuestion(question: string, other: string)
    ensures AskHuman(question)[..|Greeting|] == Greeting
    ensures AskHuman(question)[|AskHuman(question)| - |question|..] == question
    ensures AskHuman(question) == AskHuman(other) ==> question == other
  {
  }

  /** A tool name is advertised by `list_tools` exactly when `call_tool`
      does not reject it as unknown. */
  lemma CatalogueMatchesDispatch(name: string, arguments: map<string, string>, meta: Option<Meta>)
    ensures (exists i :: 0 <= i < |ListTools()| && ListTools()[i].name == name)
        <==> !(CallTool(name, arguments, meta).outcome.Err? &&
               CallTool(name, arguments, meta).outcome.fault.ValueError?)
  {
    var tools := ListTools();
    if ParseToolName(name).Some? {
      assert tools[0].name == name;
    }
  }

  /** For the advertised tool, the arguments satisfy its advertised input
      schema exactly when the call succeeds; otherwise it fails at the
      lookup of the missing field, having sent nothing. */
  lemma SchemaMatchesLookup(arguments: map<string, string>, meta: Option<Meta>)
    ensures var tool := ListTools()[0];
      var r := CallTool(tool.name, arguments, meta);
      && (HasRequired(tool.inputSchema, arguments) <==> r.outcome.Ok?)
      && (!HasRequired(tool.inputSchema, arguments) ==> r == Reply([], Err(KeyError("question"))))
  {
    var tool := ListTools()[0];
    assert tool.inputSchema.properties[0].name == QuestionKey;
    assert tool.inputSchema.properties[0].required;
  }

  /** On success the single text item starts with the header line, ends
      with the question, and reads back as exactly that question. */
  lemma AnswerCarriesQuestion(name: string, arguments: map<string, string>, meta: Option<Meta>)
    requires ParseToolName(name).Some? && QuestionKey in arguments
    ensures var text := CallTool(name, arguments, meta).outcome.content[0].text;
      var question := arguments[QuestionKey];
      && |AnswerPrefix| + |question| <= |text|
      && text[..|AnswerPrefix|] == AnswerPrefix
      && text[|text| - |question|..] == question
      && ReadQuestion(text) == Some(question)
  {
    var r := CallTool(name, arguments, meta);
    assert r.outcome.Ok?;
    var text := r.outcome.content[0].text;
    var question := arguments[QuestionKey];
    var status := AskHuman(question);
    assert text == AnswerPrefix + status;
    AskHumanEndsWithQuestion(question, question);
    assert text[|text| - |question|..] == status[|status| - |question|..];
  }

  /** With a usable token the trace is exactly the half-way report followed
      by the completion report, both for the request's own token. */
  lemma TwoPhaseTrace(name: string, arguments: map<string, string>, meta: Option<Meta>)
    requires ParseToolName(name).Some? && QuestionKey in arguments && Announces(meta)
    ensures var token := meta.value.progressToken.value;
      CallTool(name, arguments, meta).trace
        == [ProgressNotification(token, 0.5, 1.0), ProgressNotification(token, 1.0, 1.0)]
  {
    assert ParseToolName(name) == Some(AskHumanTool);
    assert CallTool(name, arguments, meta).trace == ProgressTrace(meta);
    ProgressTraceShape(meta);
  }

  /** The two reports a usable token produces. */
  lemma ProgressTraceShape(meta: Option<Meta>)
    requires Announces(meta)
    ensures var token := meta.value.progressToken.value;
      ProgressTrace(meta)
        == [ProgressNotification(token, 0.5, 1.0), ProgressNotification(token, 1.0, 1.0)]
  {
  }

  /** The metadata only decides which notifications are sent: two calls that
      differ only in it end with the same outcome. */
  lemma OutcomeIndependentOfMeta(name: string, arguments: map<string, string>, meta: Option<Meta>, meta': Option<Meta>)
    ensures CallTool(name, arguments, meta).outcome == CallTool(name, arguments, meta').outcome
  {
  }
}
