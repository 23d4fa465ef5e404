/** The protocol values the ask-human server exchanges with its client:
    progress tokens and request metadata, progress notifications, text
    content items, tool descriptors and their input schemas. */
module McpTypes {
  import opened Wrappers

  /** A progress token is either a string or an integer on the wire. */
  datatype Token = StrToken(s: string) | IntToken(n: int)

  /** Python truthiness of a token: the empty string and zero are falsy. */
  predicate TokenTruthy(t: Token) {
    match t
    case StrToken(s) => s != ""
    case IntToken(n) => n != 0
  }

  /** Python truthiness of an optional token: `None` is falsy. */
  predicate Truthy(t: Option<Token>) {
    t.Some? && TokenTruthy(t.value)
  }

  /** The `_meta` part of a request; `progressToken` may be absent. */
  datatype Meta = Meta(progressToken: Option<Token>)

  /** One outbound progress notification. Progress values are the literal
      constants the server sends, so `real` models them exactly. */
  datatype ProgressNotification =
    ProgressNotification(progressToken: Token, progress: real, total: real)

  /** A well-formed progress report for one request: every notification
      carries `token`, stays within `0 <= progress <= total`, progress
      strictly increases, and the last notification reports completion. */
  predicate ProgressSequence(trace: seq<ProgressNotification>, token: Token) {
    && (forall i :: 0 <= i < |trace| ==>
          trace[i].progressToken == token && 0.0 <= trace[i].progress <= trace[i].total)
    && (forall i, j :: 0 <= i < j < |trace| ==> trace[i].progress < trace[j].progress)
    && (|trace| > 0 ==> trace[|trace| - 1].progress == trace[|trace| - 1].total)
  }

  /** A content item of a tool result; `contentType` is the `type` tag. */
  datatype TextContent = TextContent(contentType: string, text: string)

  /** The primitive type of a schema property. */
  datatype JsonType = JsonString | JsonNumber | JsonBoolean

  /** One property of an object schema. */
  datatype Property = Property(name: string, propertyType: JsonType, required: bool)

  /** An object input schema: a title and its properties. */
  datatype ObjectSchema = ObjectSchema(title: string, properties: seq<Property>)

  /** The advertised description of one tool. */
  datatype Tool = Tool(name: string, description: string, inputSchema: ObjectSchema)

  /** True iff `arguments` carries every property the schema marks required.
      Nothing else about the arguments is checked. */
  predicate HasRequired(schema: ObjectSchema, arguments: map<string, string>) {
    forall i :: 0 <= i < |schema.properties| && schema.properties[i].required ==>
      schema.properties[i].name in arguments
  }

  /** True iff the names of the tools are pairwise distinct. */
  predicate UniqueNames(tools: seq<Tool>) {
    forall i, j :: 0 <= i < j < |tools| ==> tools[i].name != tools[j].name
  }
}
