/**
 * The summarize call across the network: what `useSummarizeNote` makes of each
 * answer the edge function can give, and whether the browser lets the call through.
 */
module SummarizeEndToEnd {
  import opened Outcomes
  import opened Text
  import opened NotesApi
  import opened SummarizeFunction
  import opened CorsPreflight
  import opened NoteForm

  /** The request `useSummarizeNote(content)` sends: a POST of `{ content }`. */
  function ClientRequest(content: string): Request {
    Request("POST", JsonValue(StringValue(content)))
  }

  /**
   * The edge function's response as the client reads it. The JSON error body has an
   * `error` property and no `message`; an empty body does not parse.
   */
  function Deliver(resp: Response): HttpOutcome {
    HttpResponse(resp.status,
      match resp.body
      case None => HttpBody.Unparsable("Unexpected end of JSON input")
      case Some(ErrorBody(_)) => JsonBody(None, None)
      case Some(SummaryBody(s)) => JsonBody(None, Some(s)))
  }

  /**
   * End to end: blank content and provider failures both reach the caller as the
   * fixed fallback message (the edge function's own error text is never read);
   * otherwise the caller gets the provider's text, trimmed.
   */
  lemma ClientSeesHandlerOutcome(content: string, provider: ChatRequest -> ProviderReply)
    ensures SummarizeResult(Deliver(Handle(ClientRequest(content), provider).response)) ==
              if AllWhitespace(content) then Err(SummarizeFallbackMessage)
              else match provider(ProviderRequest(content))
                   case Unusable => Err(SummarizeFallbackMessage)
                   case Completion(t) => Ok(Some(Trim(t)))
  {
    if AllWhitespace(content) {
      BlankContentFails(content, provider);
    } else {
      SentContentOutcome(content, provider);
    }
  }

  lemma BlankContentFails(content: string, provider: ChatRequest -> ProviderReply)
    requires AllWhitespace(content)
    ensures Deliver(Handle(ClientRequest(content), provider).response) == HttpResponse(400, JsonBody(None, None))
  {
    TrimEmptyIff(content);
    assert ContentMissing(StringValue(content));
  }

  lemma SentContentOutcome(content: string, provider: ChatRequest -> ProviderReply)
    requires !AllWhitespace(content)
    ensures Deliver(Handle(ClientRequest(content), provider).response) ==
              match provider(ProviderRequest(content))
              case Unusable => HttpResponse(500, JsonBody(None, None))
              case Completion(t) => HttpResponse(200, JsonBody(None, Some(Trim(t))))
  {
    AnyNonBlankStringIsSent("POST", content, provider);
  }

  /** No answer of the edge function hands the client a summary with surrounding whitespace. */
  lemma ClientSummaryIsTrimmed(content: string, provider: ChatRequest -> ProviderReply)
    ensures var r := SummarizeResult(Deliver(Handle(ClientRequest(content), provider).response));
            r.Ok? ==> r.value.Some? && Trim(r.value.value) == r.value.value
  {
    ClientSeesHandlerOutcome(content, provider);
    if !AllWhitespace(content) && provider(ProviderRequest(content)).Completion? {
      TrimIdempotent(provider(ProviderRequest(content)).text);
    }
  }

  /** The client's two headers are both CORS-unsafe, so the POST is preflighted. */
  lemma ClientHeadersAreUnsafe(anonKey: string)
    ensures UnsafeHeaderNames(SummarizeRequestHeaders(anonKey)) == ["content-type", "authorization"]
  {
    var h := SummarizeRequestHeaders(anonKey);
    assert Lower(h[0].0) == "content-type";
    assert |Lower(h[0].1)| == 16;
    assert Lower(h[1].0) == "authorization";
    assert h[1..] == [h[1]] && h[1..][1..] == [];
  }

  /** Whatever the preflight carries, its answer lets the client's summarize POST through. */
  lemma ClientRequestPassesPreflight(anonKey: string, body: Payload, provider: ChatRequest -> ProviderReply)
    ensures PreflightAdmits(Handle(Request("OPTIONS", body), provider).response,
                            CorsRequest("POST", UnsafeHeaderNames(SummarizeRequestHeaders(anonKey))))
  {
    ClientHeadersAreUnsafe(anonKey);
    var unsafe := ["content-type", "authorization"];
    assert HeadersAllowed(AllowedHeaderNames, unsafe) by {
      assert Lower(AllowedHeaderNames[3]) == Lower(unsafe[0]);
      assert Lower(AllowedHeaderNames[0]) == Lower(unsafe[1]);
    }
    PreflightAdmitsAllowedHeaders(body, provider, unsafe);
  }

  /** Content the form's button lets through is never refused by the edge function. */
  lemma FormGuardImpliesProviderCall(content: string, provider: ChatRequest -> ProviderReply)
    requires MayRequestSummary(content)
    ensures Handle(ClientRequest(content), provider).sent == [ProviderRequest(content)]
    ensures Handle(ClientRequest(content), provider).response.status != 400
  {
    RequestableContentIsNotBlank(content);
    AnyNonBlankStringIsSent("POST", content, provider);
  }

  /**
   * The 50-character minimum is enforced only on the client (the note form and the note
   * view page), never by the edge function: a one-letter note reaches the provider.
   */
  lemma ShortContentReachesProvider(provider: ChatRequest -> ProviderReply)
    ensures !MayRequestSummary("a")
    ensures Handle(ClientRequest("a"), provider).sent == [ProviderRequest("a")]
  {
    assert |Trim("a")| <= 1;
    assert !AllWhitespace("a") by {
      assert !IsJsWhitespace("a"[0]);
    }
    AnyNonBlankStringIsSent("POST", "a", provider);
  }
}
