# Allergy checker: the analysis endpoint, modelled in Dafny

The repository serves one HTTP endpoint, `api/analyze.js`. It receives a
photograph of a food label and the user's dietary restrictions and forwards
them to a multimodal language model (Gemini). From the model's free-text
reply it cuts out the JSON object, from the first `{` through the last `}`.
It returns that object parsed, or a JSON error envelope.

This project models everything the handler decides for itself:

- `wrappers.dfy` (`Wrappers`): `Option` and `Result`. `Result` carries a
  `Failure(message)` wherever the JavaScript throws an `Error`.
- `brace_span.dfy` (`BraceSpan`): the declarative meaning of the extraction.
  It is stated with "first index of `{`" and "last index of `}`", and comes
  with lemmas about the span: it is unique, it keeps the inner braces, and
  extraction is idempotent. Two worked examples are included.
- `json_match.dfy` (`JsonMatch`): `text.match(/\{[\s\S]*\}/)` evaluated the
  way an ECMAScript engine runs it (section 22.2 of ECMA-262). Start
  positions are tried left to right. At each one, the greedy `[\s\S]*`
  first takes everything and then backtracks until `\}` matches. This
  operational model is proved equal to the declarative span.
- `analyze.dfy` (`Analyze`): the handler, as a pure function of four
  inputs: the HTTP method, the API key, the upstream outcome, and
  `JSON.parse`. It returns `Response(status, body)`.

The handler's environment enters as parameters:

- The API key is `Option<string>`. `None` stands for an undefined
  environment variable. Like JavaScript truthiness, `KeyPresent` treats the
  empty string as missing too.
- The network exchange is `call: string -> UpstreamReply`. This is the
  outcome of the request that carries a given key. "No upstream request is
  issued" is stated as "the response does not depend on `call`".
- `JSON.parse` is `parse: string -> Result<J, string>`. The value type `J`
  is left abstract. A `Failure` holds the `SyntaxError` message.

Line 66 of `api/analyze.js` responds with `JSON.parse` of the span exactly
as it comes back: no `status` is normalised and no `matches` is defaulted.
`Handle` reflects this: a 200 body is `parse(span)` and nothing else.

## Model

| member | source | states |
|---|---|---|
| BraceSpan.FirstIndexOf | api/analyze.js:63 | the position found holds the character, and no earlier position does; nothing is found exactly when the character does not occur |
| BraceSpan.LastIndexOf | api/analyze.js:63 | the position found holds the character, and no later position does; nothing is found exactly when the character does not occur |
| BraceSpan.FirstToLast | api/analyze.js:63-64 | a span exists exactly when some `{` precedes some `}`; it starts at the first `{` of the reply, ends just past the last `}`, and is at least two characters long |
| BraceSpan.ExtractJson | api/analyze.js:63-64 | no text exactly when no `{` precedes a `}`; otherwise the text is the contiguous slice of the reply from the first `{` through the last `}`, begins with `{`, ends with `}` and has length at least 2 |
| BraceSpan.SpanIsUnique | api/analyze.js:63 | any span that starts at the first `{` and ends past the last `}` is the extracted one |
| BraceSpan.SpanKeepsInnerBraces | api/analyze.js:63 | every `}` that follows a `{`, and every `{` that precedes a `}`, lies inside the span, so nested braces and everything between them are kept |
| BraceSpan.ExtractJsonIdempotent | api/analyze.js:63 | extracting from the extracted span returns the span itself |
| BraceSpan.FencedReplyExample | api/analyze.js:62-63 | an object wrapped in a Markdown code fence is extracted alone, with its nested braces |
| BraceSpan.TwoObjectsExample | api/analyze.js:63 | two objects in one reply are extracted together with the prose between them, as one span |
| JsonMatch.Backtrack | api/analyze.js:63 | the greedy `[\s\S]*` followed by `\}` ends just past the last `}` within reach, and fails exactly when no `}` is within reach |
| JsonMatch.MatchAt | api/analyze.js:63 | the pattern matches at a position exactly when a `{` stands there and some `}` follows it, and then the match ends just past the last `}` of the reply |
| JsonMatch.SearchFrom | api/analyze.js:63 | the leftmost match starts at the first `{` that is followed by a `}`; there is no match exactly when no `{` precedes a `}` |
| JsonMatch.MatchIsFirstToLast | api/analyze.js:63 | the engine's leftmost greedy match equals the span from the first `{` through the last `}` |
| JsonMatch.Match | api/analyze.js:63-64 | `jsonMatch[0]` is exactly the first-`{`-to-last-`}` text, and `null` exactly when there is none |
| Analyze.Analysis | api/analyze.js:57-66 | the error thrown for a transport failure, a provider `error`, missing reply text, or a reply without a brace pair; otherwise the parser's verdict on the span; success only for reply text with a brace pair |
| Analyze.Handle | api/analyze.js:1-70 | 405 with `Method Not Allowed` exactly for non-POST; 500 with the key message for a falsy key; status always 200, 405 or 500; a verdict body exactly on 200; every error with a detail is the 500 `Analysis failed` envelope; 200 exactly when the reply has a brace pair whose span parses, and the body is that parse result |
| Analyze.NonPostIgnoresEverythingElse | api/analyze.js:2 | a non-POST response depends on neither the key, the upstream nor the parser |
| Analyze.MissingKeyMakesNoUpstreamCall | api/analyze.js:5-7 | with a falsy key the response does not depend on the upstream |
| Analyze.OneUpstreamCallWithTheKey | api/analyze.js:37-39 | the only upstream answer that matters is the one to the request carrying the configured key |
| Analyze.ProviderErrorIsReported | api/analyze.js:58-69 | an upstream `error` yields 500 `Analysis failed` with the provider's message as detail |
| Analyze.NoBracePairIsReported | api/analyze.js:63-69 | a reply with no `{` before a `}` yields 500 `Analysis failed` with detail `AI failed to return valid JSON format.` |
| Analyze.UnparsableSpanIsReported | api/analyze.js:66-69 | a span the parser rejects yields 500 `Analysis failed` with the parser's message, never 200 |
| Analyze.VerdictIsParsedFirstToLastSpan | api/analyze.js:63-66 | a 200 body is exactly the parse of the reply's slice from its first `{` through its last `}` |

## Left out

- The `fetch` call, URL construction and request-body encoding (api/analyze.js:37-55). They are network I/O; their outcome is the abstract `call`, and `TransportFailure` stands for every error they throw.
- Prompt construction (api/analyze.js:10-34). It interpolates user text into free-form instructions and has no behaviour to check.
- The generation parameters `temperature` and `topP` (api/analyze.js:50-53). They are floats passed through to the provider.
- The internals of `JSON.parse`, a library parser, modelled as the abstract `parse`. Serialising the parsed value back with `res.json` is not modelled either; the body is the parsed value itself.
- The shape of the upstream JSON (`candidates[0].content.parts[0].text`, api/analyze.js:60). It is reduced to "text available" (`ReplyText`) versus "access or `match` throws" (`MissingText`).
- The destructuring of `req.body` (api/analyze.js:4). It runs outside the `try`, and what it does with a missing body depends on the host.
- `console.error` logging (api/analyze.js:68), and reading the key from the process environment. The key is a parameter.
- The reply is modelled as a sequence of Unicode scalar values, while JavaScript strings are sequences of UTF-16 code units. `Span` positions therefore count code points, not JavaScript string indices, and a reply that holds a lone surrogate cannot be represented. The extracted text is the same for well-formed text, because `{` and `}` are single code units.
- Concurrency and asynchrony. The handler awaits one exchange per request and keeps no state.
