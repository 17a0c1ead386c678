/** The request handler of api/analyze.js as a function from its inputs to
    the response it sends. The network exchange with the model provider is
    the abstract `call` (its outcome for the request carrying a given key),
    and `JSON.parse` is the abstract `parse`. Everything else the handler
    decides is modelled exactly, except the destructuring of `req.body` on
    line 4, which runs outside the `try` and is not modelled. */
module Analyze {
  import opened Wrappers
  import opened BraceSpan
  import JsonMatch

  const MethodNotAllowed: string := "Method Not Allowed"
  const ApiKeyMissing: string := "API Key missing in Vercel settings."
  const AnalysisFailed: string := "Analysis failed"
  const NoJsonFormat: string := "AI failed to return valid JSON format."

  /** What the upstream exchange produced, as seen by the code after `fetch`. */
  datatype UpstreamReply =
      /** `fetch` rejected, `response.json()` could not read the body, or the
          body was `null` so that reading `data.error` throws. */
    | TransportFailure(message: string)
      /** The body carries a truthy `error` field; `errorMessage` is its
          `error.message`, absent when that field is undefined. */
    | ProviderError(errorMessage: Option<string>)
      /** `candidates[0].content.parts[0].text` could not be read, or is not
          a string, so the property access or `text.match` throws. */
    | MissingText(message: string)
      /** The model's reply text. */
    | ReplyText(text: string)

  /** A JSON response body: the uniform error envelope, or the parsed verdict. */
  datatype Body<J> = ErrorBody(error: string, detail: Option<string>) | Verdict(value: J)

  datatype Response<J> = Response(status: nat, body: Body<J>)

  /** JavaScript truthiness of `process.env.GEMINI_API_KEY`: an environment
      variable is either undefined or a string, and only `""` is a falsy string. */
  predicate KeyPresent(apiKey: Option<string>) {
    apiKey.Some? && apiKey.value != ""
  }

  /** The body of the `try` block once the upstream reply is in hand: either
      the parsed verdict or the message of the error it throws. */
  function Analysis<J>(reply: UpstreamReply, parse: string -> Result<J, string>): (r: Result<J, string>)
    ensures reply.TransportFailure? || reply.MissingText? ==> r == Failure(reply.message)
    ensures reply.ProviderError? ==> r == Failure(reply.errorMessage.GetOr(""))
    ensures reply.ReplyText? && !HasBracePair(reply.text) ==> r == Failure(NoJsonFormat)
    ensures reply.ReplyText? && HasBracePair(reply.text) ==> r == parse(ExtractJson(reply.text).value)
    ensures r.Success? ==> reply.ReplyText? && HasBracePair(reply.text)
  {
    match reply
    case TransportFailure(m) => Failure(m)
    case ProviderError(m) => Failure(m.GetOr(""))
    case MissingText(m) => Failure(m)
    case ReplyText(text) =>
      match JsonMatch.Match(text)
      case None => Failure(NoJsonFormat)
      case Some(span) => parse(span)
  }

  /** The whole handler: HTTP method guard, key guard, then the upstream call and
      its analysis, with every error thrown there caught into one envelope. */
  function Handle<J>(verb: string, apiKey: Option<string>,
                     call: string -> UpstreamReply,
                     parse: string -> Result<J, string>): (r: Response<J>)
    ensures r.status == 405 <==> verb != "POST"
    ensures r.status == 405 ==> r.body == ErrorBody(MethodNotAllowed, None)
    ensures verb == "POST" && !KeyPresent(apiKey) ==> r == Response(500, ErrorBody(ApiKeyMissing, None))
    ensures r.status == 200 || r.status == 405 || r.status == 500
    ensures r.body.Verdict? <==> r.status == 200
    ensures r.body.ErrorBody? && r.body.detail.Some? ==> r.status == 500 && r.body.error == AnalysisFailed
    ensures r.status == 200 <==>
              && verb == "POST" && KeyPresent(apiKey)
              && call(apiKey.value).ReplyText?
              && HasBracePair(call(apiKey.value).text)
              && parse(ExtractJson(call(apiKey.value).text).value).Success?
    ensures r.status == 200 ==>
              parse(ExtractJson(call(apiKey.value).text).value) == Success(r.body.value)
    ensures verb == "POST" && KeyPresent(apiKey) && Analysis(call(apiKey.value), parse).Failure? ==>
              r == Response(500, ErrorBody(AnalysisFailed, Some(Analysis(call(apiKey.value), parse).error)))
  {
    if verb != "POST" then Response(405, ErrorBody(MethodNotAllowed, None))
    else if !KeyPresent(apiKey) then Response(500, ErrorBody(ApiKeyMissing, None))
    else
      match Analysis(call(apiKey.value), parse)
      case Success(v) => Response(200, Verdict(v))
      case Failure(m) => Response(500, ErrorBody(AnalysisFailed, Some(m)))
  }

  /** A request that is not a POST is answered without reading the key,
      calling upstream or parsing anything. */
  lemma NonPostIgnoresEverythingElse<J>(verb: string, key1: Option<string>, key2: Option<string>,
                                        call1: string -> UpstreamReply, call2: string -> UpstreamReply,
                                        parse1: string -> Result<J, string>, parse2: string -> Result<J, string>)
    requires verb != "POST"
    ensures Handle(verb, key1, call1, parse1) == Handle(verb, key2, call2, parse2)
  {
  }

  /** Without a key the upstream request is never issued: the response is
      the same whatever the upstream would have answered. */
  lemma MissingKeyMakesNoUpstreamCall<J>(verb: string, apiKey: Option<string>,
                                         call1: string -> UpstreamReply, call2: string -> UpstreamReply,
                                         parse1: string -> Result<J, string>, parse2: string -> Result<J, string>)
    requires !KeyPresent(apiKey)
    ensures Handle(verb, apiKey, call1, parse1) == Handle(verb, apiKey, call2, parse2)
  {
  }

  /** With a key present, only the upstream's answer to the request
      carrying the configured key matters. */
  lemma OneUpstreamCallWithTheKey<J>(verb: string, apiKey: Option<string>,
                                     call1: string -> UpstreamReply, call2: string -> UpstreamReply,
                                     parse: string -> Result<J, string>)
    requires KeyPresent(apiKey) && call1(apiKey.value) == call2(apiKey.value)
    ensures Handle(verb, apiKey, call1, parse) == Handle(verb, apiKey, call2, parse)
  {
  }

  /** An upstream body carrying `error` yields the failure envelope with the
      provider's message as detail. */
  lemma ProviderErrorIsReported<J>(apiKey: Option<string>, call: string -> UpstreamReply,
                                   parse: string -> Result<J, string>, message: Option<string>)
    requires KeyPresent(apiKey) && call(apiKey.value) == ProviderError(message)
    ensures Handle("POST", apiKey, call, parse) == Response(500, ErrorBody(AnalysisFailed, Some(message.GetOr(""))))
  {
  }

  /** A reply with no `{` before a `}` yields the failure envelope with the
      fixed "no JSON" detail, and the parser is never consulted. */
  lemma NoBracePairIsReported<J>(apiKey: Option<string>, call: string -> UpstreamReply,
                                 parse: string -> Result<J, string>, text: string)
    requires KeyPresent(apiKey) && call(apiKey.value) == ReplyText(text) && !HasBracePair(text)
    ensures Handle("POST", apiKey, call, parse) == Response(500, ErrorBody(AnalysisFailed, Some(NoJsonFormat)))
  {
  }

  /** A span the parser rejects is never answered with 200: the failure
      envelope carries the parser's message. */
  lemma UnparsableSpanIsReported<J>(apiKey: Option<string>, call: string -> UpstreamReply,
                                    parse: string -> Result<J, string>, text: string)
    requires KeyPresent(apiKey) && call(apiKey.value) == ReplyText(text) && HasBracePair(text)
    requires parse(ExtractJson(text).value).Failure?
    ensures Handle("POST", apiKey, call, parse)
            == Response(500, ErrorBody(AnalysisFailed, Some(parse(ExtractJson(text).value).error)))
  {
  }

  /** A 200 body is exactly what the parser made of the reply's span from
      its first `{` through its last `}`: nothing is added, defaulted or
      rewritten. */
  lemma VerdictIsParsedFirstToLastSpan<J>(verb: string, apiKey: Option<string>,
                                          call: string -> UpstreamReply, parse: string -> Result<J, string>)
    requires Handle(verb, apiKey, call, parse).status == 200
    ensures KeyPresent(apiKey) && call(apiKey.value).ReplyText?
    ensures var text := call(apiKey.value).text;
            exists a, e :: IsFirstOpen(text, a) && IsPastLastClose(text, e) && a + 2 <= e
                           && parse(text[a..e]) == Success(Handle(verb, apiKey, call, parse).body.value)
  {
  }
}
