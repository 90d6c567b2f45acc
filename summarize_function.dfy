/**
 * The `summarize` edge function: one request in, one response out, with the
 * chat-completion provider as a parameter. Every response carries the same
 * CORS header set.
 */
module SummarizeFunction {
  import opened Outcomes
  import opened Text

  /**
   * The value of the `content` property after `req.json()`: absent, a falsy
   * non-string (`null`, `false`, `0`, `NaN`), a string, or a truthy non-string
   * (`true`, a non-zero number, an object, an array), which has no `trim`.
   */
  datatype ContentValue = Undefined | FalsyValue | StringValue(s: string) | TruthyValue

  /**
   * The request body as `req.json()` parses it: not JSON, JSON `null` (which the
   * destructuring cannot read), or any other JSON value; a non-object yields `Undefined`.
   */
  datatype Payload = Unparsable | JsonNull | JsonValue(content: ContentValue)

  datatype Request = Request(verb: string, body: Payload)

  /**
   * The two chat messages the handler sends: the fixed system instruction, and the
   * user message asking for a summary of `text`. Their wording is in module
   * SummarizePrompts.
   */
  datatype ChatMessage = SystemInstruction | SummarizeAsk(text: string)

  /** The chat-completion request sent to the provider. */
  datatype ChatRequest = ChatRequest(model: string, messages: seq<ChatMessage>, maxTokens: nat)

  /**
   * What the handler gets back from the provider: `Completion(text)` when the reply
   * parses and has a string `choices[0].message.content`; `Unusable` for a network error,
   * a body that is not JSON, or one without that string. The HTTP status is not inspected.
   */
  datatype ProviderReply = Unusable | Completion(text: string)

  datatype ResponseBody = ErrorBody(error: string) | SummaryBody(summary: string)

  /** A response; `None` is the empty body of the preflight answer. */
  datatype Response = Response(status: nat, body: Option<ResponseBody>, headers: seq<(string, string)>)

  /** The response together with the provider requests made while computing it. */
  datatype Exchange = Exchange(response: Response, sent: seq<ChatRequest>)

  const AllowedHeaderNames: seq<string> := ["authorization", "x-client-info", "apikey", "content-type"]
  const AllowedMethods: seq<string> := ["POST", "OPTIONS"]

  /**
   * `corsHeaders`. The two list-valued headers are written as their lists joined with
   * `", "`, which spells out "authorization, x-client-info, apikey, content-type" and
   * "POST, OPTIONS".
   */
  const CorsHeaders: seq<(string, string)> := [
    ("Access-Control-Allow-Origin", "*"),
    ("Access-Control-Allow-Headers", JoinList(AllowedHeaderNames)),
    ("Access-Control-Allow-Methods", JoinList(AllowedMethods)),
    ("Content-Type", "application/json")
  ]

  const ProviderModel: string := "deepseek-chat"
  const MaxTokens: nat := 150

  const ContentRequiredMessage: string := "Content is required"
  const FailureMessage: string := "Failed to summarize content"

  /**
   * The request body sent to the provider for `content`: the system instruction first,
   * then the summary request carrying `content` unchanged, with the fixed model and
   * token limit.
   */
  function ProviderRequest(content: string): (r: ChatRequest)
    ensures r.model == ProviderModel && r.maxTokens == MaxTokens
    ensures |r.messages| == 2 && r.messages[0] == SystemInstruction
    ensures r.messages[1].SummarizeAsk? && r.messages[1].text == content
  {
    ChatRequest(ProviderModel, [SystemInstruction, SummarizeAsk(content)], MaxTokens)
  }

  /**
   * `!content || content.trim().length === 0`, for the values on which `trim` exists or is
   * not reached: content counts as missing exactly when it is neither a string with a
   * non-whitespace character nor a truthy non-string.
   */
  predicate ContentMissing(v: ContentValue): (missing: bool)
    ensures missing <==> !(v.TruthyValue? || (v.StringValue? && !AllWhitespace(v.s)))
  {
    match v
    case StringValue(s) => TrimEmptyIff(s); Trim(s) == []
    case _ => v.Undefined? || v.FalsyValue?
  }

  function Reply(status: nat, body: Option<ResponseBody>): Response {
    Response(status, body, CorsHeaders)
  }

  /** The handler passed to `serve`. */
  function Handle(req: Request, provider: ChatRequest -> ProviderReply): (x: Exchange)
    ensures x.response.headers == CorsHeaders
    ensures x.response.status in {200, 204, 400, 500}
    ensures req.verb == "OPTIONS" <==> x.response.status == 204
    ensures x.response.status == 204 ==> x.response.body.None? && x.sent == []
    ensures x.response.status == 400 <==> req.verb != "OPTIONS" && req.body.JsonValue? && ContentMissing(req.body.content)
    ensures x.response.status == 400 ==> x.response.body == Some(ErrorBody(ContentRequiredMessage)) && x.sent == []
    ensures x.response.status == 500 ==> x.response.body == Some(ErrorBody(FailureMessage))
    ensures x.sent != [] ==> req.body.JsonValue? && req.body.content.StringValue?
                             && x.sent == [ProviderRequest(req.body.content.s)]
    ensures x.response.status == 200 <==> x.sent != [] && provider(x.sent[0]).Completion?
    ensures x.response.status == 200 ==> x.response.body == Some(SummaryBody(Trim(provider(x.sent[0]).text)))
  {
    if req.verb == "OPTIONS" then
      Exchange(Reply(204, None), [])
    else
      match req.body
      case Unparsable => Exchange(Reply(500, Some(ErrorBody(FailureMessage))), [])   // req.json() throws
      case JsonNull => Exchange(Reply(500, Some(ErrorBody(FailureMessage))), [])     // destructuring null throws
      case JsonValue(content) =>
        if ContentMissing(content) then
          Exchange(Reply(400, Some(ErrorBody(ContentRequiredMessage))), [])
        else if content.TruthyValue? then
          Exchange(Reply(500, Some(ErrorBody(FailureMessage))), [])                 // content.trim is not a function
        else
          var q := ProviderRequest(content.s);
          match provider(q)
          case Unusable => Exchange(Reply(500, Some(ErrorBody(FailureMessage))), [q])
          case Completion(text) =>
            Exchange(Reply(200, Some(SummaryBody(Trim(text)))), [q])
  }

  /** A 200 answer's summary has no leading or trailing whitespace. */
  lemma SummaryIsTrimmed(req: Request, provider: ChatRequest -> ProviderReply)
    requires Handle(req, provider).response.status == 200
    ensures var s := Handle(req, provider).response.body.value.summary;
            s == [] || (!IsJsWhitespace(s[0]) && !IsJsWhitespace(s[|s| - 1]))
  {
    var x := Handle(req, provider);
    var t := provider(x.sent[0]).text;
    assert x.response.body.value.summary == Trim(t);
  }

  /** Calls that never reach the provider have a response that does not depend on it. */
  lemma ProviderOnlyConsultedWhenSent(req: Request, p1: ChatRequest -> ProviderReply, p2: ChatRequest -> ProviderReply)
    requires Handle(req, p1).sent == []
    ensures Handle(req, p2) == Handle(req, p1)
  {
    if req.verb != "OPTIONS" && req.body.JsonValue? {
      var c := req.body.content;
      if !ContentMissing(c) && !c.TruthyValue? {
        assert false;
      }
    }
  }

  /** There is no 50-character minimum here: any string with one non-whitespace character is sent. */
  lemma AnyNonBlankStringIsSent(verb: string, s: string, provider: ChatRequest -> ProviderReply)
    requires verb != "OPTIONS" && !AllWhitespace(s)
    ensures Handle(Request(verb, JsonValue(StringValue(s))), provider).sent == [ProviderRequest(s)]
  {
    TrimEmptyIff(s);
    assert !ContentMissing(StringValue(s));
  }

  /** A preflight gets the same empty 204 answer whatever its body. */
  lemma PreflightIgnoresBody(b1: Payload, b2: Payload, provider: ChatRequest -> ProviderReply)
    ensures Handle(Request("OPTIONS", b1), provider) == Handle(Request("OPTIONS", b2), provider)
  {
  }
}
