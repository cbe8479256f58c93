# OpenAI prompt transformer — a Dafny model

This project models `OpenAITransformer` from `src/transformers/openai.ts`. The transformer turns
an arbitrary input into structured data in four steps:

1. It builds a system prompt. A caller override is used verbatim. Otherwise it uses a fixed
   instructional text, with an "Expected output format" block spliced in that lists the
   descriptor's fields.
2. It builds a user prompt: the override, or a fixed preamble followed by the input
   pretty-printed as JSON.
3. It sends one chat-completion request: the model, temperature and token limit, and exactly two
   messages.
4. It reads the first choice's content back with `JSON.parse`. Every failure is re-raised as
   `Transformation failed: <reason>`.

The code is pure: it builds values and throws, and nothing is reassigned after construction. So
the model is datatypes, functions and lemmas, with no classes or loops.

- `wrappers.dfy` (module `Wrappers`): `Option` for JavaScript's optional fields, and `Result`
  for thrown exceptions.
- `strings.dfy` (module `Strings`): `Array.join` as `Join`. `Offset` says where each part lands,
  and lemmas prove that each part, and each separator, sits at its offset in input order. Also
  character searches used to read a rendered field back.
- `openai.dfy` (module `OpenAI`):
  - the data model: context, output-format descriptor, configuration, request, response, and
    the thrown value;
  - the constructor's defaulting (`NewTransformer`);
  - `SystemPrompt`, `UserPrompt`, `BuildRequest`, `ReadReply` and the error wrapping;
  - `Transform`, which returns the request it sends together with its result.
- `openai_properties.dfy` (module `OpenAIProperties`):
  - an inverse for the field rendering (`ParseField`);
  - the layout of the format block;
  - the end-to-end properties of `Transform`;
  - one lemma per test case in `test/transformers/openai.test.ts`.

Foreign parts become parameters:

- The network call is an input `CallOutcome`: either a response record, or a thrown value that
  is an `Error` with its message or some other value.
- `JSON.stringify(input, null, 2)` is `prettyPrint: In -> Result<string, Thrown>`. It may throw,
  and it runs inside the `try`.
- `JSON.parse` is `parse: string -> Option<V>`, where `None` means it threw.

JavaScript truthiness tests (`context?.systemPrompt`, `context?.prompt || …`,
`context?.model || …`, `!result`) become "absent or empty string" (`Supplied`). The
`||` in `generateUserPrompt` is lazy: with a prompt override the input is never serialised. The
model keeps this, so an input that cannot be serialised is still sent when the override is given.

Three details of the code the model keeps:

- Fields are joined by `",\n"` followed by ten spaces, not simply by commas and newlines.
- `"Unknown error"` is used when the thrown value is not an `Error` instance. An `Error` with an
  empty message gives `"Transformation failed: "` with nothing after it.
- Nothing in this file checks the API key. Any check happens inside the foreign client's
  constructor.

## Model

| member | source | states |
|---|---|---|
| `OpenAI.NewTransformer` | src/transformers/openai.ts:27-32 | caller-supplied temperature and max tokens are kept; omitted ones become 0.7 and 1000; the API key is kept as given |
| `OpenAI.ParseTypeTag` | src/transformers/openai.ts:17 | reads the five type tags back; it succeeds exactly on a tag that some field type renders to, and returns that type |
| `OpenAI.WrapFailure` | src/transformers/openai.ts:107 | every re-raised message starts with `Transformation failed: ` |
| `OpenAI.UnwrapFailure` | src/transformers/openai.ts:107 | a message with the prefix splits into prefix and reason; one without the prefix gives nothing |
| `Strings.Join` | src/transformers/openai.ts:46 | joining no parts gives the empty string; joining one part gives that part |
| `Strings.JoinAt` | src/transformers/openai.ts:44-46 | part `i` appears verbatim at its offset in the joined text |
| `Strings.JoinSeparatorAt` | src/transformers/openai.ts:46 | exactly one separator stands between part `i` and part `i + 1` |
| `Strings.JoinLength` | src/transformers/openai.ts:46 | the joined text ends right after the last part, with no trailing separator |
| `Strings.OffsetOrdered` | src/transformers/openai.ts:44-46 | parts keep their input order: a later part starts after an earlier one and its separator end |
| `OpenAIProperties.SplitName` | src/transformers/openai.ts:45 | a quoted name read off the front is quote-free, and the text is the quote, the name, the quote and the rest |
| `OpenAIProperties.SplitTag` | src/transformers/openai.ts:45 | a tail read back is the description, ` (`, a valid type tag and `)"` |
| `OpenAIProperties.ParseField` | src/transformers/openai.ts:45 | whatever it accepts is exactly the rendering of the field it reports |
| `OpenAIProperties.RenderFieldRoundTrip` | src/transformers/openai.ts:45 | a rendered field gives back its name, description and type verbatim, and never its `required` flag |
| `OpenAIProperties.RequiredIgnored` | src/transformers/openai.ts:13-20 | descriptors that agree on names, descriptions and types give the same format block, whatever their `required` flags |
| `OpenAIProperties.FormatBlockFrame` | src/transformers/openai.ts:41-47 | the block opens with the header (`Expected output format:` and the brace line) and closes with the closing-brace line |
| `OpenAIProperties.FormatBlockLayout` | src/transformers/openai.ts:42-46 | field `i` is rendered at the header's length plus its join offset |
| `OpenAIProperties.FormatBlockSeparator` | src/transformers/openai.ts:46 | neighbouring fields are separated by exactly `",\n"` plus ten spaces |
| `OpenAIProperties.FormatBlockHeading` | src/transformers/openai.ts:42 | the heading `Expected output format:` follows the block's first line break |
| `OpenAIProperties.EmptyFormatBlock` | src/transformers/openai.ts:41-47 | an empty field list still gives the header and footer, with an empty body |
| `OpenAIProperties.SystemPromptChoice` | src/transformers/openai.ts:39-67 | a non-empty `systemPrompt` override is the prompt verbatim; an absent or empty one gives preamble, format instructions and closing line |
| `OpenAIProperties.SystemPromptFormatBlock` | src/transformers/openai.ts:41-65 | without an override and with an output format, the block's header directly follows the preamble |
| `OpenAIProperties.SystemPromptNoFormat` | src/transformers/openai.ts:48-67 | without an override and without an output format, the prompt is the preamble and the closing line alone |
| `OpenAIProperties.SystemPromptWithFormat` | src/transformers/openai.ts:41-67 | without an override and with an output format, the prompt is preamble, format block and closing line |
| `OpenAIProperties.SystemPromptListsField` | src/transformers/openai.ts:44-65 | every field is rendered at a fixed position in the system prompt: preamble, header and join offset |
| `OpenAIProperties.SystemPromptContainsField` | src/transformers/openai.ts:44-46 | every descriptor field occurs, rendered, in the system prompt |
| `OpenAIProperties.SystemPromptAnnouncesFormat` | src/transformers/openai.ts:41-42 | a context with an output format (and no override) gets the `Expected output format:` heading in its system prompt |
| `OpenAIProperties.SystemPromptDependsOnlyOnFormat` | src/transformers/openai.ts:41-67 | without an override, only the output format shapes the system prompt |
| `OpenAI.RenderField` | src/transformers/openai.ts:44-45 | renders one field as quoted name, colon, quoted description with the type tag in parentheses; its inverse is `OpenAIProperties.ParseField`, and `OpenAIProperties.RenderFieldRoundTrip` reads the name, description and type back |
| `OpenAI.RenderFields` | src/transformers/openai.ts:44-45 | one rendering per descriptor field, in descriptor order |
| `OpenAI.FormatBlock` | src/transformers/openai.ts:41-47 | the "Expected output format" block; its layout is stated by `OpenAIProperties.FormatBlockFrame`, `FormatBlockLayout`, `FormatBlockSeparator`, `FormatBlockHeading` and `EmptyFormatBlock` |
| `OpenAI.FormatInstructions` | src/transformers/openai.ts:41-48 | the block when the context has an output format and nothing otherwise; stated by `OpenAIProperties.SystemPromptWithFormat` and `SystemPromptNoFormat` |
| `OpenAI.SystemPrompt` | src/transformers/openai.ts:38-68 | `generateSystemPrompt`; stated by `OpenAIProperties.SystemPromptChoice`, `SystemPromptWithFormat`, `SystemPromptNoFormat`, `SystemPromptListsField` and `SystemPromptContainsField` |
| `OpenAI.UserPrompt` | src/transformers/openai.ts:70-76 | `generateUserPrompt`; stated by `OpenAIProperties.UserPromptChoice` |
| `OpenAI.SelectModel` | src/transformers/openai.ts:87 | the override model or `gpt-3.5-turbo`; stated by `OpenAIProperties.TransformRequest` |
| `OpenAI.BuildRequest` | src/transformers/openai.ts:86-94 | model, stored temperature and max tokens, system then user message; stated by `OpenAIProperties.TransformRequest` and `TransformOverridesVerbatim` |
| `OpenAI.ReplyContent` | src/transformers/openai.ts:96 | `choices[0]?.message?.content`; stated by `OpenAIProperties.ReplyContentMissing` |
| `OpenAI.ReadReply` | src/transformers/openai.ts:96-105 | the inner try; stated by `OpenAIProperties.ReadReplyClassification` |
| `OpenAI.InnerMessage` | src/transformers/openai.ts:107 | an `Error`'s message, or `Unknown error` for any other thrown value; stated by `OpenAIProperties.TransformFailuresWrapped` |
| `OpenAI.Transform` | src/transformers/openai.ts:78-109 | `transform`; stated by `OpenAIProperties.TransformSendsIff`, `TransformSuccessIff`, `TransformFailuresWrapped`, `TransformReplyFailure`, `TransformIgnoresFormat`, `TransformWithoutContext` and `TransformRoundTrip` |
| `OpenAIProperties.UserPromptChoice` | src/transformers/openai.ts:70-75 | a non-empty `prompt` override is the user prompt verbatim, even for an input that cannot be serialised; otherwise the prompt is the preamble plus the serialised input, and a serialisation failure is the prompt's failure |
| `OpenAIProperties.ReadReplyClassification` | src/transformers/openai.ts:96-105 | no-response error exactly when the content is missing or empty; parse error exactly when non-empty content does not parse; success with the parsed value exactly when it parses |
| `OpenAIProperties.ReplyContentMissing` | src/transformers/openai.ts:96 | no choices, or a first choice without a message, means no content; otherwise the content is the first message's content |
| `OpenAIProperties.WrapUnwrapRoundTrip` | src/transformers/openai.ts:107 | the inner reason can be read back from the wrapped message |
| `OpenAIProperties.WrapFailureInjective` | src/transformers/openai.ts:107 | different reasons give different wrapped messages |
| `OpenAIProperties.WrappedReasonsDiffer` | src/transformers/openai.ts:98-107 | the wrapped no-response and parse errors differ |
| `OpenAIProperties.TransformRequest` | src/transformers/openai.ts:83-94 | the request carries the override model or `gpt-3.5-turbo`, the stored temperature and max tokens, and exactly two messages, system first and user second |
| `OpenAIProperties.TransformOverridesVerbatim` | src/transformers/openai.ts:83-93 | with both prompt overrides, the two messages are exactly the overrides |
| `OpenAIProperties.TransformSendsIff` | src/transformers/openai.ts:83-86 | the request is sent exactly when the user prompt could be built |
| `OpenAIProperties.TransformFailuresWrapped` | src/transformers/openai.ts:106-108 | every rejection has the prefix and a readable reason; a network failure and a serialisation failure are reported with their own messages |
| `OpenAIProperties.TransformReplyFailure` | src/transformers/openai.ts:96-107 | a reply that cannot be read is rejected with the wrapped reason |
| `OpenAIProperties.TransformSuccessIff` | src/transformers/openai.ts:82-105 | success exactly when the request was sent, the call resolved, and the first content is non-empty and parses; the parsed value is returned unchanged |
| `OpenAIProperties.TransformIgnoresFormat` | src/transformers/openai.ts:101-102 | the result never depends on the output-format descriptor: nothing checks the reply against it |
| `OpenAIProperties.TransformWithoutContext` | src/transformers/openai.ts:78-81 | omitting the context behaves exactly like passing an empty one |
| `OpenAIProperties.TransformRoundTrip` | src/transformers/openai.ts:96-102 | a reply holding a value's serialisation that `parse` reads back resolves to that value |
| `OpenAIProperties.DefaultScenario` | test/transformers/openai.test.ts:45-62 | no context: model `gpt-3.5-turbo`, temperature 0.7 and 1000 tokens are sent, and the parsed reply is returned |
| `OpenAIProperties.ModelScenario` | test/transformers/openai.test.ts:64-78 | the `gpt-4` override is the model sent |
| `OpenAIProperties.OutputFormatScenario` | test/transformers/openai.test.ts:80-101 | the system message contains `Expected output format:` and `"summary": "Brief summary (string)"` |
| `OpenAIProperties.SummaryRendering` | test/transformers/openai.test.ts:100 | the test's field renders as `"summary": "Brief summary (string)"` |
| `OpenAIProperties.CustomPromptsScenario` | test/transformers/openai.test.ts:103-116 | `Custom system prompt` and `Custom user prompt` become the two messages verbatim |
| `OpenAIProperties.InvalidJsonScenario` | test/transformers/openai.test.ts:118-132 | content `Invalid JSON` that does not parse is rejected with `Transformation failed: Failed to parse OpenAI response as JSON` |
| `OpenAIProperties.EmptyResponseScenario` | test/transformers/openai.test.ts:134-142 | a response without choices is rejected with `Transformation failed: No response generated from OpenAI` |

## Left out

- The OpenAI client (src/transformers/openai.ts:33-35) and its `chat.completions.create` call (line 86) are a foreign network library. The call is the input `CallOutcome`. `Transform` returns the request it would send, at most one per call. Any API-key validation done by the client's constructor is not modelled.
- `async`/`await`: the transformation is one linear exchange, modelled as a function of the call's outcome.
- `JSON.stringify` and `JSON.parse` are foreign and appear only as parameters. Their grammar and the two-space indentation are not modelled. `TransformRoundTrip` assumes that `parse` reads back what the serialiser wrote.
- Temperature is carried as a `real` with no arithmetic, and max tokens as an unbounded `int`. Only their defaults and their pass-through matter.
- The configuration spread in the constructor (lines 28-32) lets a key explicitly set to `undefined` overwrite a default. The model treats that key as omitted.
- A missing or `null` `choices` throws a `TypeError` whose message depends on the engine. Other non-array values of `choices` (an object, a number, a string) are not modelled either; they would give `undefined` content and the no-response error. The model always has a sequence of choices.
- An `outputFormat` without `fields`, or a `prompt` that is not a string, contradicts the declared TypeScript types. Neither is modelled.
- The `as T` cast performs no runtime check. The result is whatever `parse` produced.
- `OpenAIProperties.RenderFieldRoundTrip`: requires a field name without a double quote. With one, the rendered line is ambiguous and cannot be read back.
- The researcher facades (`src/researchers/token/index.ts`, `src/researchers/generics/index.ts`, `src/researchers/index.ts`) and the SDK wiring in `src/index.ts` are concurrent fan-out over foreign HTTP provider clients and are not part of this model. `test/token.test.ts` calls live third-party APIs.
