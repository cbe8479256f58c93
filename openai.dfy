/** The OpenAI-backed prompt transformer: it builds a system and a user
    prompt, sends one chat-completion request and reads the first choice's
    content back as JSON. The network call, `JSON.stringify` and `JSON.parse`
    are foreign: the call's outcome and the two JSON functions are parameters. */
module OpenAI {
  import opened Wrappers
  import opened Strings

  // ---------------------------------------------------------------- data model

  /** The primitive type tag of a described output field. */
  datatype FieldType = StringField | NumberField | BooleanField | ArrayField | ObjectField

  /** One entry of the output-format descriptor; `required` is optional. */
  datatype Field = Field(name: string, description: string, fieldType: FieldType, required: Option<bool>)

  datatype OutputFormat = OutputFormat(fields: seq<Field>)

  /** Caller overrides for one transformation; every part may be omitted. */
  datatype Context = Context(
    prompt: Option<string>,
    systemPrompt: Option<string>,
    model: Option<string>,
    outputFormat: Option<OutputFormat>)

  /** What the caller passes to the constructor. */
  datatype TransformerConfig = TransformerConfig(apiKey: string, temperature: Option<real>, maxTokens: Option<int>)

  /** A constructed transformer: its configuration with the defaults filled in.
      Nothing reassigns it after construction. */
  datatype Transformer = Transformer(apiKey: string, temperature: real, maxTokens: int)

  datatype Role = SystemRole | UserRole

  datatype ChatMessage = ChatMessage(role: Role, content: string)

  /** The chat-completion request the transformer sends. */
  datatype Request = Request(model: string, temperature: real, maxTokens: int, messages: seq<ChatMessage>)

  /** The parts of a chat-completion response the transformer reads; every
      level of `choices[0]?.message?.content` may be missing. */
  datatype Message = Message(content: Option<string>)
  datatype Choice = Choice(message: Option<Message>)
  datatype Response = Response(choices: seq<Choice>)

  /** A thrown value: an `Error` instance with its message, or anything else. */
  datatype Thrown = ErrorObject(message: string) | OtherValue

  /** How the one network call ends. */
  datatype CallOutcome = Resolved(response: Response) | Rejected(reason: Thrown)

  /** The request `transform` sends (none when it throws before the call) and
      what it resolves to or the message it rejects with. */
  datatype Transformation<V> = Transformation(sent: Option<Request>, result: Result<V, string>)

  // ---------------------------------------------------------------- constants

  const DefaultTemperature: real := 0.7
  const DefaultMaxTokens: int := 1000
  const DefaultModel: string := "gpt-3.5-turbo"

  /** The fixed opening of the synthesized system prompt, line by line. */
  const SystemPreambleLines: seq<string> := [
    "You are a data transformation expert. Your task is to analyze the input data and transform it into a highly contextual format that will be valuable for subsequent AI processing.",
    "",
    "Key objectives:",
    "1. Extract and highlight key information, relationships, and patterns",
    "2. Maintain semantic meaning while removing noise and redundancy",
    "3. Structure the output in a way that maximizes context understanding",
    "4. Preserve important metadata and relationships",
    "5. Add relevant contextual information when beneficial",
    "",
    "Guidelines:",
    "- Identify and extract core concepts and entities",
    "- Preserve relationships between different data elements",
    "- Include relevant metadata that aids understanding",
    "- Remove redundant or non-essential information",
    "- Structure output in a clear, hierarchical format",
    "- Add explanatory context where beneficial"
  ]
  const SystemPreamble: string := Join(SystemPreambleLines, "\n")

  const SystemClosing: string :=
    "\n\nEnsure the output is valid JSON and follows any specified format requirements."

  /** The opening of the format block, up to where the first field goes. */
  const FormatHeading: string := "Expected output format:"
  const FormatOpening: string := "\n        {\n          "
  const FormatHeader: string := "\n" + FormatHeading + FormatOpening
  const FormatFooter: string := "\n        }\n"
  /** Comma, newline and ten spaces. */
  const FieldSeparator: string := ",\n          "

  const UserPreamble: string :=
    "Please transform the following data into a rich, contextual format that will be valuable for AI processing. \n"
    + "Focus on extracting key information, relationships, and patterns while maintaining semantic accuracy.\n"
    + "\n"
    + "Input data:\n"

  const NoResponseMessage: string := "No response generated from OpenAI"
  const ParseFailureMessage: string := "Failed to parse OpenAI response as JSON"
  const FailurePrefix: string := "Transformation failed: "
  const UnknownErrorMessage: string := "Unknown error"

  // ---------------------------------------------------------------- construction

  /** The constructor: caller-supplied tuning values win, omitted ones get
      the defaults 0.7 and 1000; the API key is kept as given. */
  function NewTransformer(config: TransformerConfig): (t: Transformer)
    ensures t.apiKey == config.apiKey
    ensures config.temperature.None? ==> t.temperature == DefaultTemperature
    ensures config.temperature.Some? ==> t.temperature == config.temperature.value
    ensures config.maxTokens.None? ==> t.maxTokens == DefaultMaxTokens
    ensures config.maxTokens.Some? ==> t.maxTokens == config.maxTokens.value
  {
    Transformer(config.apiKey, config.temperature.GetOr(DefaultTemperature), config.maxTokens.GetOr(DefaultMaxTokens))
  }

  // ---------------------------------------------------------------- overrides

  /** JavaScript truthiness of an optional string: present and non-empty. */
  predicate Supplied(s: Option<string>) {
    s.Some? && s.value != ""
  }

  function SystemOverride(context: Option<Context>): Option<string> {
    if context.Some? && Supplied(context.value.systemPrompt) then context.value.systemPrompt else None
  }

  function PromptOverride(context: Option<Context>): Option<string> {
    if context.Some? && Supplied(context.value.prompt) then context.value.prompt else None
  }

  function ModelOverride(context: Option<Context>): Option<string> {
    if context.Some? && Supplied(context.value.model) then context.value.model else None
  }

  /** `context?.outputFormat?.fields`. */
  function FormatFields(context: Option<Context>): Option<seq<Field>> {
    if context.Some? && context.value.outputFormat.Some? then Some(context.value.outputFormat.value.fields) else None
  }

  // ---------------------------------------------------------------- system prompt

  /** The text of a field's type tag. */
  function TypeTag(t: FieldType): string {
    match t
    case StringField => "string"
    case NumberField => "number"
    case BooleanField => "boolean"
    case ArrayField => "array"
    case ObjectField => "object"
  }

  /** Reads a type tag back. */
  function ParseTypeTag(tag: string): (r: Option<FieldType>)
    ensures r.Some? ==> TypeTag(r.value) == tag
    ensures forall t: FieldType :: TypeTag(t) == tag ==> r == Some(t)
  {
    if tag == "string" then Some(StringField)
    else if tag == "number" then Some(NumberField)
    else if tag == "boolean" then Some(BooleanField)
    else if tag == "array" then Some(ArrayField)
    else if tag == "object" then Some(ObjectField)
    else None
  }

  /** `"<name>": "<description> (<type>)"`. */
  function RenderField(f: Field): string {
    "\"" + f.name + "\": \"" + f.description + " (" + TypeTag(f.fieldType) + ")\""
  }

  /** The rendered fields, in descriptor order. */
  function RenderFields(fields: seq<Field>): (r: seq<string>)
    ensures |r| == |fields|
    ensures forall i :: 0 <= i < |fields| ==> r[i] == RenderField(fields[i])
  {
    seq(|fields|, i requires 0 <= i < |fields| => RenderField(fields[i]))
  }

  /** The "Expected output format" block spliced into the system prompt. */
  function FormatBlock(fields: seq<Field>): string {
    FormatHeader + Join(RenderFields(fields), FieldSeparator) + FormatFooter
  }

  /** The block when the context carries an output format, otherwise nothing. */
  function FormatInstructions(context: Option<Context>): string {
    match FormatFields(context)
    case Some(fields) => FormatBlock(fields)
    case None => ""
  }

  /** `generateSystemPrompt`. */
  function SystemPrompt(context: Option<Context>): string {
    match SystemOverride(context)
    case Some(s) => s
    case None => SystemPreamble + FormatInstructions(context) + SystemClosing
  }

  // ---------------------------------------------------------------- user prompt

  /** `generateUserPrompt`; `prettyPrint` stands for `JSON.stringify(input, null, 2)`,
      which may throw, and is only consulted when no prompt override is given. */
  function UserPrompt<In>(input: In, context: Option<Context>, prettyPrint: In -> Result<string, Thrown>): Result<string, Thrown> {
    match PromptOverride(context)
    case Some(p) => Success(p)
    case None =>
      match prettyPrint(input)
      case Success(text) => Success(UserPreamble + text)
      case Failure(e) => Failure(e)
  }

  // ---------------------------------------------------------------- request

  function SelectModel(context: Option<Context>): string {
    ModelOverride(context).GetOr(DefaultModel)
  }

  /** The request body of `chat.completions.create`. */
  function BuildRequest(t: Transformer, context: Option<Context>, system: string, user: string): Request {
    Request(SelectModel(context), t.temperature, t.maxTokens,
            [ChatMessage(SystemRole, system), ChatMessage(UserRole, user)])
  }

  // ---------------------------------------------------------------- reply

  /** `response.choices[0]?.message?.content`. */
  function ReplyContent(response: Response): Option<string> {
    if |response.choices| == 0 then None
    else match response.choices[0].message
      case None => None
      case Some(m) => m.content
  }

  /** The inner try: a missing or empty content is the no-response error; a
      content `parse` rejects is the parse error; otherwise the parsed value. */
  function ReadReply<V>(response: Response, parse: string -> Option<V>): Result<V, Thrown> {
    match ReplyContent(response)
    case None => Failure(ErrorObject(NoResponseMessage))
    case Some(content) =>
      if content == "" then Failure(ErrorObject(NoResponseMessage))
      else match parse(content)
        case None => Failure(ErrorObject(ParseFailureMessage))
        case Some(v) => Success(v)
  }

  // ---------------------------------------------------------------- errors

  /** What the outer catch reports of a thrown value. */
  function InnerMessage(e: Thrown): string {
    match e
    case ErrorObject(m) => m
    case OtherValue => UnknownErrorMessage
  }

  /** The message of the error the outer catch re-raises. */
  function WrapFailure(e: Thrown): (m: string)
    ensures |m| >= |FailurePrefix| && m[..|FailurePrefix|] == FailurePrefix
  {
    FailurePrefix + InnerMessage(e)
  }

  /** Recovers the inner reason from a wrapped message. */
  function UnwrapFailure(m: string): (r: Option<string>)
    ensures r.Some? ==> m == FailurePrefix + r.value
    ensures r.None? ==> !(FailurePrefix <= m)
  {
    if FailurePrefix <= m then Some(m[|FailurePrefix|..]) else None
  }

  // ---------------------------------------------------------------- transform

  /** `transform(input, context)` against the outcome `call` of the network
      request; `parse` stands for `JSON.parse`. */
  function Transform<In, V>(
    t: Transformer,
    input: In,
    context: Option<Context>,
    prettyPrint: In -> Result<string, Thrown>,
    call: CallOutcome,
    parse: string -> Option<V>): Transformation<V>
  {
    var system := SystemPrompt(context);
    match UserPrompt(input, context, prettyPrint)
    case Failure(e) => Transformation(None, Failure(WrapFailure(e)))
    case Success(user) =>
      var inner := match call
        case Rejected(e) => Failure(e)
        case Resolved(response) => ReadReply(response, parse);
      Transformation(Some(BuildRequest(t, context, system, user)), inner.MapFailure(WrapFailure))
  }
}
