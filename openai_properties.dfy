/** What the transformer promises, stated over the functions of module OpenAI:
    the field rendering can be read back, the format block lists every field in
    order, overrides are used verbatim, the request has its fixed shape, and
    every failure is wrapped without losing its reason. */
module OpenAIProperties {
  import opened Wrappers
  import opened Strings
  import opened OpenAI

  // ---------------------------------------------------------------- field rendering

  /** What a rendered field line gives back: everything but `required`. */
  datatype FieldText = FieldText(name: string, description: string, fieldType: FieldType)

  /** Reads a quoted name off the front of `s`: the name ends at the first
      quote after the opening one. */
  function SplitName(s: string): (r: Option<(string, string)>)
    ensures r.Some? ==> '"' !in r.value.0 && s == "\"" + r.value.0 + "\"" + r.value.1
  {
    if |s| == 0 || s[0] != '"' then None
    else match IndexOf(s, '"', 1)
      case None => None
      case Some(j) =>
        assert forall k :: 0 <= k < j - 1 ==> s[1..j][k] == s[k + 1];
        assert s == [s[0]] + s[1..j] + [s[j]] + s[j + 1..];
        Some((s[1..j], s[j + 1..]))
  }

  /** Reads `<description> (<type>)"` back: the type tag starts after the
      last opening parenthesis, which no tag contains. */
  function SplitTag(body: string): (r: Option<(string, FieldType)>)
    ensures r.Some? ==> body == r.value.0 + " (" + TypeTag(r.value.1) + ")\""
  {
    if |body| < 2 || body[|body| - 2..] != ")\"" then None
    else
      var inner := body[..|body| - 2];
      match LastIndexOf(inner, '(')
      case None => None
      case Some(p) =>
        if p == 0 || inner[p - 1] != ' ' then None
        else match ParseTypeTag(inner[p + 1..])
          case None => None
          case Some(t) =>
            assert inner == inner[..p - 1] + " (" + inner[p + 1..];
            assert body == inner + ")\"";
            Some((inner[..p - 1], t))
  }

  /** Reads `"<name>": "<description> (<type>)"` back. */
  function ParseField(s: string): (r: Option<FieldText>)
    ensures r.Some? ==> RenderField(Field(r.value.name, r.value.description, r.value.fieldType, None)) == s
  {
    match SplitName(s)
    case None => None
    case Some((name, rest)) =>
      if !(": \"" <= rest) then None
      else match SplitTag(rest[3..])
        case None => None
        case Some((description, t)) =>
          assert rest == ": \"" + rest[3..];
          RenderFieldParts(Field(name, description, t, None));
          Some(FieldText(name, description, t))
  }

  /** The rendered field as quoted name, closing quote, and the rest. */
  lemma RenderFieldParts(f: Field)
    ensures RenderField(f) == "\"" + f.name + "\"" + (": \"" + (f.description + " (" + TypeTag(f.fieldType) + ")\""))
  {
  }

  lemma SplitNameOf(name: string, tail: string)
    requires '"' !in name
    ensures SplitName("\"" + name + "\"" + tail) == Some((name, tail))
  {
    var s := "\"" + name + "\"" + tail;
    var n := |name|;
    assert s[1 + n] == '"';
    forall k | 1 <= k < 1 + n ensures s[k] != '"' {
      assert s[k] == name[k - 1];
    }
    assert IndexOf(s, '"', 1) == Some(1 + n);
    assert s[1..1 + n] == name;
    assert s[n + 2..] == tail;
  }

  lemma SplitTagOf(description: string, t: FieldType)
    ensures SplitTag(description + " (" + TypeTag(t) + ")\"") == Some((description, t))
  {
    var tag := TypeTag(t);
    assert '(' !in tag by {
      match t
      case StringField =>
      case NumberField =>
      case BooleanField =>
      case ArrayField =>
      case ObjectField =>
    }
    var body := description + " (" + tag + ")\"";
    var inner := body[..|body| - 2];
    assert inner == description + " (" + tag;
    assert body[|body| - 2..] == ")\"";
    var p := |description| + 1;
    assert inner[p] == '(';
    forall k | p < k < |inner| ensures inner[k] != '(' {
      assert inner[k] == tag[k - p - 1];
    }
    assert LastIndexOf(inner, '(') == Some(p);
    assert inner[p + 1..] == tag;
    assert inner[..p - 1] == description;
  }

  /** A rendered field reproduces its name, description and type verbatim:
      reading it back recovers them (when the name holds no quote, which is
      what delimits it), and the `required` flag leaves no trace. */
  lemma RenderFieldRoundTrip(f: Field)
    requires '"' !in f.name
    ensures ParseField(RenderField(f)) == Some(FieldText(f.name, f.description, f.fieldType))
  {
    var body := f.description + " (" + TypeTag(f.fieldType) + ")\"";
    var tail := ": \"" + body;
    RenderFieldParts(f);
    SplitNameOf(f.name, tail);
    assert tail[3..] == body;
    SplitTagOf(f.description, f.fieldType);
  }

  /** The `required` flag never reaches the text: descriptors that agree on
      names, descriptions and types give the same format block. */
  lemma RequiredIgnored(a: seq<Field>, b: seq<Field>)
    requires |a| == |b|
    requires forall i :: 0 <= i < |a| ==>
      a[i].name == b[i].name && a[i].description == b[i].description && a[i].fieldType == b[i].fieldType
    ensures FormatBlock(a) == FormatBlock(b)
  {
    assert RenderFields(a) == RenderFields(b);
  }

  // ---------------------------------------------------------------- format block

  /** The block opens with the header and closes with the footer. */
  lemma FormatBlockFrame(fields: seq<Field>)
    ensures FormatHeader <= FormatBlock(fields)
    ensures |FormatBlock(fields)| >= |FormatHeader| + |FormatFooter|
    ensures FormatBlock(fields)[|FormatBlock(fields)| - |FormatFooter|..] == FormatFooter
  {
    var joined := Join(RenderFields(fields), FieldSeparator);
    var block := FormatBlock(fields);
    assert block == FormatHeader + (joined + FormatFooter);
    assert block == (FormatHeader + joined) + FormatFooter;
  }

  /** Field `i` sits at its join offset after the header. */
  lemma FormatBlockLayout(fields: seq<Field>, i: nat)
    requires i < |fields|
    ensures |FormatHeader| + Offset(RenderFields(fields), FieldSeparator, i) + |RenderField(fields[i])| <= |FormatBlock(fields)|
    ensures RenderField(fields[i]) <= FormatBlock(fields)[|FormatHeader| + Offset(RenderFields(fields), FieldSeparator, i)..]
  {
    var parts := RenderFields(fields);
    var joined := Join(parts, FieldSeparator);
    var o := Offset(parts, FieldSeparator, i);
    JoinAt(parts, FieldSeparator, i);
    assert parts[i] <= joined[o..];
    InfixOfConcat(FormatHeader, joined, FormatFooter, o, parts[i]);
  }

  /** Neighbouring fields are separated by a comma, a line break and ten
      spaces, and by nothing else. */
  lemma FormatBlockSeparator(fields: seq<Field>, i: nat)
    requires i + 1 < |fields|
    ensures var at := |FormatHeader| + Offset(RenderFields(fields), FieldSeparator, i) + |RenderField(fields[i])|;
      && at + |FieldSeparator| == |FormatHeader| + Offset(RenderFields(fields), FieldSeparator, i + 1)
      && at + |FieldSeparator| <= |FormatBlock(fields)|
      && FieldSeparator <= FormatBlock(fields)[at..]
  {
    var parts := RenderFields(fields);
    var joined := Join(parts, FieldSeparator);
    var lo := Offset(parts, FieldSeparator, i) + |parts[i]|;
    JoinSeparatorAt(parts, FieldSeparator, i);
    assert FieldSeparator <= joined[lo..];
    InfixOfConcat(FormatHeader, joined, FormatFooter, lo, FieldSeparator);
  }

  /** An empty field list still yields the header, with an empty body. */
  lemma EmptyFormatBlock()
    ensures FormatBlock([]) == FormatHeader + FormatFooter
  {
    assert Join(RenderFields([]), FieldSeparator) == "";
  }

  // ---------------------------------------------------------------- system prompt

  /** A non-empty `systemPrompt` override is the prompt verbatim; an absent
      or empty one falls through to preamble, format block and closing line. */
  lemma SystemPromptChoice(context: Option<Context>)
    ensures context.Some? && Supplied(context.value.systemPrompt) ==>
      SystemPrompt(context) == context.value.systemPrompt.value
    ensures !(context.Some? && Supplied(context.value.systemPrompt)) ==>
      SystemPrompt(context) == SystemPreamble + FormatInstructions(context) + SystemClosing
  {
  }

  /** Without an override and with an output format, the format block's
      header follows the preamble. */
  lemma SystemPromptFormatBlock(context: Option<Context>)
    requires SystemOverride(context).None? && FormatFields(context).Some?
    ensures FormatHeader <= SystemPrompt(context)[|SystemPreamble|..]
  {
    SystemPromptWithFormat(context, FormatFields(context).value);
    HeaderInsideText(SystemPreamble, SystemClosing, FormatFields(context).value);
  }

  /** Without an override and without an output format, the prompt is the
      preamble and the closing line alone. */
  lemma SystemPromptNoFormat(context: Option<Context>)
    requires SystemOverride(context).None? && FormatFields(context).None?
    ensures SystemPrompt(context) == SystemPreamble + SystemClosing
  {
    assert SystemPrompt(context) == SystemPreamble + "" + SystemClosing;
    assert SystemPreamble + "" == SystemPreamble;
  }

  /** The header opens the block in any text that wraps it. */
  lemma HeaderInsideText(before: string, after: string, fields: seq<Field>)
    ensures FormatHeader <= (before + FormatBlock(fields) + after)[|before|..]
  {
    var block := FormatBlock(fields);
    FormatBlockFrame(fields);
    assert block[0..] == block;
    InfixOfConcat(before, block, after, 0, FormatHeader);
  }

  /** Without an override, field `i` of the descriptor appears rendered at
      its place in the system prompt. */
  lemma SystemPromptListsField(context: Option<Context>, fields: seq<Field>, i: nat)
    requires SystemOverride(context).None? && FormatFields(context) == Some(fields)
    requires i < |fields|
    ensures |SystemPreamble| + |FormatHeader| + Offset(RenderFields(fields), FieldSeparator, i) <= |SystemPrompt(context)|
    ensures RenderField(fields[i]) <= SystemPrompt(context)[|SystemPreamble| + |FormatHeader| + Offset(RenderFields(fields), FieldSeparator, i)..]
  {
    SystemPromptWithFormat(context, fields);
    FieldInsideText(SystemPreamble, SystemClosing, fields, i);
  }

  /** Field `i` sits at its place in any text that wraps the format block. */
  lemma FieldInsideText(before: string, after: string, fields: seq<Field>, i: nat)
    requires i < |fields|
    ensures |before| + |FormatHeader| + Offset(RenderFields(fields), FieldSeparator, i) <= |before + FormatBlock(fields) + after|
    ensures RenderField(fields[i]) <= (before + FormatBlock(fields) + after)[|before| + |FormatHeader| + Offset(RenderFields(fields), FieldSeparator, i)..]
  {
    var at := |FormatHeader| + Offset(RenderFields(fields), FieldSeparator, i);
    FormatBlockLayout(fields, i);
    InfixOfConcat(before, FormatBlock(fields), after, at, RenderField(fields[i]));
  }

  /** Without an override, a context with an output format gets the
      `Expected output format` header in its system prompt. */
  lemma SystemPromptAnnouncesFormat(context: Option<Context>)
    requires SystemOverride(context).None? && FormatFields(context).Some?
    ensures Contains(SystemPrompt(context), FormatHeading)
  {
    var block := FormatBlock(FormatFields(context).value);
    FormatBlockHeading(FormatFields(context).value);
    InfixOfConcat(SystemPreamble, block, SystemClosing, 1, FormatHeading);
    SystemPromptWithFormat(context, FormatFields(context).value);
  }

  /** Without an override, the prompt with an output format. */
  lemma SystemPromptWithFormat(context: Option<Context>, fields: seq<Field>)
    requires SystemOverride(context).None? && FormatFields(context) == Some(fields)
    ensures SystemPrompt(context) == SystemPreamble + FormatBlock(fields) + SystemClosing
  {
  }

  /** The heading follows the block's opening line break. */
  lemma FormatBlockHeading(fields: seq<Field>)
    ensures |FormatBlock(fields)| >= 1 && FormatHeading <= FormatBlock(fields)[1..]
  {
    assert FormatHeading[0..] == FormatHeading;
    InfixOfConcat("\n", FormatHeading, FormatOpening, 0, FormatHeading);
    FormatBlockFrame(fields);
    InfixOfPrefix(FormatHeader, FormatBlock(fields), 1, FormatHeading);
  }

  /** Without an override, every field of the descriptor occurs rendered in
      the system prompt. */
  lemma SystemPromptContainsField(context: Option<Context>, fields: seq<Field>, i: nat)
    requires SystemOverride(context).None? && FormatFields(context) == Some(fields)
    requires i < |fields|
    ensures Contains(SystemPrompt(context), RenderField(fields[i]))
  {
    SystemPromptListsField(context, fields, i);
  }

  /** Without an override nothing but the output format shapes the system
      prompt: user prompt and model overrides leave it alone. */
  lemma SystemPromptDependsOnlyOnFormat(c1: Option<Context>, c2: Option<Context>)
    requires SystemOverride(c1).None? && SystemOverride(c2).None?
    requires FormatFields(c1) == FormatFields(c2)
    ensures SystemPrompt(c1) == SystemPrompt(c2)
  {
  }

  // ---------------------------------------------------------------- user prompt

  /** A non-empty `prompt` override is the user prompt verbatim, even for an
      input that cannot be serialised; otherwise the prompt is the preamble
      followed by the serialised input, and a serialisation failure is the
      prompt's failure. */
  lemma UserPromptChoice<In>(input: In, context: Option<Context>, prettyPrint: In -> Result<string, Thrown>)
    ensures context.Some? && Supplied(context.value.prompt) ==>
      UserPrompt(input, context, prettyPrint) == Success(context.value.prompt.value)
    ensures !(context.Some? && Supplied(context.value.prompt)) ==>
      (forall text :: prettyPrint(input) == Success(text) <==> UserPrompt(input, context, prettyPrint) == Success(UserPreamble + text))
    ensures !(context.Some? && Supplied(context.value.prompt)) ==>
      (forall e :: prettyPrint(input) == Failure(e) <==> UserPrompt(input, context, prettyPrint) == Failure(e))
  {
    if !(context.Some? && Supplied(context.value.prompt)) {
      forall text ensures UserPrompt(input, context, prettyPrint) == Success(UserPreamble + text) ==> prettyPrint(input) == Success(text) {
        if UserPrompt(input, context, prettyPrint) == Success(UserPreamble + text) {
          var u := UserPreamble + text;
          assert text == u[|UserPreamble|..];
        }
      }
    }
  }

  // ---------------------------------------------------------------- reply and errors

  /** The three outcomes of reading the reply, each with its exact condition. */
  lemma ReadReplyClassification<V>(response: Response, parse: string -> Option<V>)
    ensures ReadReply(response, parse) == Failure(ErrorObject(NoResponseMessage)) <==>
      (ReplyContent(response).None? || ReplyContent(response) == Some(""))
    ensures ReadReply(response, parse) == Failure(ErrorObject(ParseFailureMessage)) <==>
      (ReplyContent(response).Some? && ReplyContent(response) != Some("") && parse(ReplyContent(response).value).None?)
    ensures forall v :: ReadReply(response, parse) == Success(v) <==>
      (ReplyContent(response).Some? && ReplyContent(response) != Some("") && parse(ReplyContent(response).value) == Some(v))
  {
  }

  /** No choices, no message or no content all count as a missing content. */
  lemma ReplyContentMissing(response: Response)
    ensures |response.choices| == 0 ==> ReplyContent(response).None?
    ensures |response.choices| > 0 && response.choices[0].message.None? ==> ReplyContent(response).None?
    ensures |response.choices| > 0 && response.choices[0].message.Some? ==>
      ReplyContent(response) == response.choices[0].message.value.content
  {
  }

  /** Wrapping keeps the inner reason: it can be read back from the message. */
  lemma WrapUnwrapRoundTrip(e: Thrown)
    ensures UnwrapFailure(WrapFailure(e)) == Some(InnerMessage(e))
  {
    var m := WrapFailure(e);
    assert m[|FailurePrefix|..] == InnerMessage(e);
  }

  /** Different reasons give different wrapped messages, so the no-response
      and parse errors stay apart after wrapping. */
  lemma WrapFailureInjective(e1: Thrown, e2: Thrown)
    requires WrapFailure(e1) == WrapFailure(e2)
    ensures InnerMessage(e1) == InnerMessage(e2)
  {
    WrapUnwrapRoundTrip(e1);
    WrapUnwrapRoundTrip(e2);
  }

  lemma WrappedReasonsDiffer()
    ensures WrapFailure(ErrorObject(NoResponseMessage)) != WrapFailure(ErrorObject(ParseFailureMessage))
  {
  }

  // ---------------------------------------------------------------- transform

  /** The request: the override model or the default, the stored temperature
      and token limit, and exactly two messages, system first, user second. */
  lemma TransformRequest<In, V>(t: Transformer, input: In, context: Option<Context>,
                                prettyPrint: In -> Result<string, Thrown>, call: CallOutcome, parse: string -> Option<V>)
    ensures var r := Transform(t, input, context, prettyPrint, call, parse);
      r.sent.Some? ==>
        && (context.Some? && Supplied(context.value.model) ==> r.sent.value.model == context.value.model.value)
        && (!(context.Some? && Supplied(context.value.model)) ==> r.sent.value.model == DefaultModel)
        && r.sent.value.temperature == t.temperature
        && r.sent.value.maxTokens == t.maxTokens
        && r.sent.value.messages == [ChatMessage(SystemRole, SystemPrompt(context)),
                                     ChatMessage(UserRole, UserPrompt(input, context, prettyPrint).value)]
  {
  }

  /** With both overrides supplied, the two messages are exactly the
      overrides, with nothing synthesized around them. */
  lemma TransformOverridesVerbatim<In, V>(t: Transformer, input: In, context: Context,
                                          prettyPrint: In -> Result<string, Thrown>, call: CallOutcome, parse: string -> Option<V>)
    requires Supplied(context.systemPrompt) && Supplied(context.prompt)
    ensures var r := Transform(t, input, Some(context), prettyPrint, call, parse);
      && r.sent.Some?
      && r.sent.value.messages == [ChatMessage(SystemRole, context.systemPrompt.value),
                                   ChatMessage(UserRole, context.prompt.value)]
  {
  }

  /** The request is sent exactly when the user prompt could be built. */
  lemma TransformSendsIff<In, V>(t: Transformer, input: In, context: Option<Context>,
                                 prettyPrint: In -> Result<string, Thrown>, call: CallOutcome, parse: string -> Option<V>)
    ensures Transform(t, input, context, prettyPrint, call, parse).sent.Some? <==> UserPrompt(input, context, prettyPrint).Success?
  {
  }

  /** Every rejection carries the prefix and the reason of what was thrown. */
  lemma TransformFailuresWrapped<In, V>(t: Transformer, input: In, context: Option<Context>,
                                        prettyPrint: In -> Result<string, Thrown>, call: CallOutcome, parse: string -> Option<V>)
    ensures var r := Transform(t, input, context, prettyPrint, call, parse);
      r.result.Failure? ==> FailurePrefix <= r.result.error && UnwrapFailure(r.result.error).Some?
    ensures var r := Transform(t, input, context, prettyPrint, call, parse);
      call.Rejected? && UserPrompt(input, context, prettyPrint).Success? ==>
        r.result == Failure(FailurePrefix + InnerMessage(call.reason))
    ensures var r := Transform(t, input, context, prettyPrint, call, parse);
      prettyPrint(input).Failure? && PromptOverride(context).None? ==>
        r.result == Failure(FailurePrefix + InnerMessage(prettyPrint(input).error))
  {
    var r := Transform(t, input, context, prettyPrint, call, parse);
    if r.result.Failure? {
      var m := r.result.error;
      assert UnwrapFailure(m) == Some(m[|FailurePrefix|..]);
    }
  }

  /** A reply that cannot be read is rejected with the wrapped reason. */
  lemma TransformReplyFailure<In, V>(t: Transformer, input: In, context: Option<Context>,
                                     prettyPrint: In -> Result<string, Thrown>, response: Response, parse: string -> Option<V>)
    requires UserPrompt(input, context, prettyPrint).Success?
    requires ReadReply(response, parse).Failure?
    ensures Transform(t, input, context, prettyPrint, Resolved(response), parse).result
         == Failure(WrapFailure(ReadReply(response, parse).error))
  {
  }

  /** The transformation succeeds exactly when the request was sent, the call
      resolved, and the first choice holds non-empty content that parses; the
      parsed value is returned unchanged. */
  lemma TransformSuccessIff<In, V>(t: Transformer, input: In, context: Option<Context>,
                                   prettyPrint: In -> Result<string, Thrown>, call: CallOutcome, parse: string -> Option<V>, v: V)
    ensures Transform(t, input, context, prettyPrint, call, parse).result == Success(v) <==>
      && UserPrompt(input, context, prettyPrint).Success?
      && call.Resolved?
      && ReplyContent(call.response).Some?
      && ReplyContent(call.response).value != ""
      && parse(ReplyContent(call.response).value) == Some(v)
  {
  }

  /** The descriptor is advice only: the result never depends on it. */
  lemma TransformIgnoresFormat<In, V>(t: Transformer, input: In, context: Context, format: Option<OutputFormat>,
                                      prettyPrint: In -> Result<string, Thrown>, call: CallOutcome, parse: string -> Option<V>)
    ensures Transform(t, input, Some(context), prettyPrint, call, parse).result
         == Transform(t, input, Some(context.(outputFormat := format)), prettyPrint, call, parse).result
  {
  }

  /** Omitting the context is the same as passing one with nothing in it. */
  lemma TransformWithoutContext<In, V>(t: Transformer, input: In,
                                       prettyPrint: In -> Result<string, Thrown>, call: CallOutcome, parse: string -> Option<V>)
    ensures Transform(t, input, None, prettyPrint, call, parse)
         == Transform(t, input, Some(Context(None, None, None, None)), prettyPrint, call, parse)
  {
  }

  /** If the model replies with the serialisation of a value that `parse`
      reads back, the transformation resolves to that value. */
  lemma TransformRoundTrip<In, V>(t: Transformer, input: In, context: Option<Context>,
                                  prettyPrint: In -> Result<string, Thrown>, parse: string -> Option<V>,
                                  serialize: V -> string, o: V)
    requires UserPrompt(input, context, prettyPrint).Success?
    requires serialize(o) != "" && parse(serialize(o)) == Some(o)
    ensures Transform(t, input, context, prettyPrint,
                      Resolved(Response([Choice(Some(Message(Some(serialize(o)))))])), parse).result == Success(o)
  {
  }

  // ---------------------------------------------------------------- scenarios

  /** A transformer built with only an API key, as callers usually do. */
  function KeyOnly(apiKey: string): TransformerConfig {
    TransformerConfig(apiKey, None, None)
  }

  /** No context: the default model, temperature 0.7 and 1000 tokens, and the
      parsed reply as the result. */
  lemma DefaultScenario<In, V>(input: In, prettyPrint: In -> Result<string, Thrown>,
                               reply: string, parse: string -> Option<V>, v: V)
    requires prettyPrint(input).Success?
    requires reply != "" && parse(reply) == Some(v)
    ensures var r := Transform(NewTransformer(KeyOnly("test-api-key")), input, None, prettyPrint,
                               Resolved(Response([Choice(Some(Message(Some(reply))))])), parse);
      && r.sent.Some?
      && r.sent.value.model == "gpt-3.5-turbo"
      && r.sent.value.temperature == 0.7
      && r.sent.value.maxTokens == 1000
      && r.result == Success(v)
  {
  }

  /** A `model` override is the model sent. */
  lemma ModelScenario<In, V>(input: In, prettyPrint: In -> Result<string, Thrown>, call: CallOutcome, parse: string -> Option<V>)
    requires prettyPrint(input).Success?
    ensures var r := Transform(NewTransformer(KeyOnly("test-api-key")), input,
                               Some(Context(None, None, Some("gpt-4"), None)), prettyPrint, call, parse);
      r.sent.Some? && r.sent.value.model == "gpt-4"
  {
  }

  /** The one-field descriptor is announced and rendered in the system message. */
  lemma OutputFormatScenario<In, V>(input: In, prettyPrint: In -> Result<string, Thrown>, call: CallOutcome, parse: string -> Option<V>)
    requires prettyPrint(input).Success?
    ensures var r := Transform(NewTransformer(KeyOnly("test-api-key")), input,
                               Some(Context(None, None, None, Some(OutputFormat([Field("summary", "Brief summary", StringField, Some(true))])))),
                               prettyPrint, call, parse);
      && r.sent.Some?
      && Contains(r.sent.value.messages[0].content, FormatHeading)
      && Contains(r.sent.value.messages[0].content, "\"summary\": \"Brief summary (string)\"")
  {
    var field := Field("summary", "Brief summary", StringField, Some(true));
    var context := Some(Context(None, None, None, Some(OutputFormat([field]))));
    var t := NewTransformer(KeyOnly("test-api-key"));
    SystemPromptAnnouncesFormat(context);
    SystemPromptContainsField(context, [field], 0);
    SummaryRendering();
    TransformRequest(t, input, context, prettyPrint, call, parse);
  }

  /** The scenario's one field, rendered. */
  lemma SummaryRendering()
    ensures RenderField(Field("summary", "Brief summary", StringField, Some(true))) == "\"summary\": \"Brief summary (string)\""
  {
    var r := RenderField(Field("summary", "Brief summary", StringField, Some(true)));
    assert r == "\"" + "summary" + "\": \"" + "Brief summary" + " (" + "string" + ")\"";
  }

  /** Both overrides reach the two messages verbatim. */
  lemma CustomPromptsScenario<In, V>(input: In, prettyPrint: In -> Result<string, Thrown>, call: CallOutcome, parse: string -> Option<V>)
    ensures var r := Transform(NewTransformer(KeyOnly("test-api-key")), input,
                               Some(Context(Some("Custom user prompt"), Some("Custom system prompt"), None, None)),
                               prettyPrint, call, parse);
      && r.sent.Some?
      && r.sent.value.messages[0].content == "Custom system prompt"
      && r.sent.value.messages[1].content == "Custom user prompt"
  {
  }

  /** Content that does not parse is the wrapped parse error. */
  lemma InvalidJsonScenario<In, V>(input: In, prettyPrint: In -> Result<string, Thrown>, parse: string -> Option<V>)
    requires prettyPrint(input).Success?
    requires parse("Invalid JSON").None?
    ensures Transform(NewTransformer(KeyOnly("test-api-key")), input, None, prettyPrint,
                      Resolved(Response([Choice(Some(Message(Some("Invalid JSON"))))])), parse).result
         == Failure(FailurePrefix + ParseFailureMessage)
  {
    var response := Response([Choice(Some(Message(Some("Invalid JSON"))))]);
    assert ReadReply(response, parse) == Failure(ErrorObject(ParseFailureMessage));
    TransformReplyFailure(NewTransformer(KeyOnly("test-api-key")), input, None, prettyPrint, response, parse);
  }

  /** A response without choices is the wrapped no-response error. */
  lemma EmptyResponseScenario<In, V>(input: In, prettyPrint: In -> Result<string, Thrown>, parse: string -> Option<V>)
    requires prettyPrint(input).Success?
    ensures Transform(NewTransformer(KeyOnly("test-api-key")), input, None, prettyPrint,
                      Resolved(Response([])), parse).result
         == Failure(FailurePrefix + NoResponseMessage)
  {
    var response := Response([]);
    assert ReadReply(response, parse) == Failure(ErrorObject(NoResponseMessage));
    TransformReplyFailure(NewTransformer(KeyOnly("test-api-key")), input, None, prettyPrint, response, parse);
  }
}
