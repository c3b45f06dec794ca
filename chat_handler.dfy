/** The POST handler of the chat route: validation, token accounting, the
    moderation gate on the last message, the token ceiling, prompt assembly,
    the completion call, and the uniform error response. Each thrown error
    of the handler is a `Failure` outcome here; the outbound calls it makes
    are recorded in a trace. */
module ChatHandler {
  import opened ChatTypes
  import opened TokenBudget
  import opened PromptAssembly

  /** The status, content type and body of the response sent to the client. */
  datatype Payload = EventStream(bytes: Bytes) | JsonError(error: string)
  datatype HttpResponse = HttpResponse(status: nat, contentType: string, payload: Payload)

  const ErrorText: string := "There was an error processing your request"

  /** The one response every failure produces. */
  const UniformError: HttpResponse := HttpResponse(500, "application/json", JsonError(ErrorText))

  /** The request gets as far as the moderation fetch: the key is set, the
      body carries a list of messages, and that list has a last element. */
  predicate ReachesModeration(cfg: Config, body: RequestBody)
  {
    cfg.apiKey != "" && body.Messages? && body.msgs != []
  }

  function LastContent(msgs: seq<Message>): string
    requires msgs != []
  {
    msgs[|msgs| - 1].content
  }

  /** The moderation reply was read and did not flag the text. */
  predicate Cleared(reply: ModerationReply)
  {
    reply.Verdict? && !reply.flagged
  }

  /** The request passes both gates and the completion call is made. */
  predicate ReachesCompletion(cfg: Config, body: RequestBody, tok: Tokenizer,
                              moderate: string -> ModerationReply)
  {
    && ReachesModeration(cfg, body)
    && Cleared(moderate(LastContent(body.msgs)))
    && WithinBudget(Total(cfg.persona, body.msgs, tok))
  }

  /** Handles one request. `tok` is the tokenizer, `moderate` and `complete`
      are the two upstream services as seen by this request. */
  method Post(cfg: Config, body: RequestBody, tok: Tokenizer,
              moderate: string -> ModerationReply,
              complete: AssembledRequest -> CompletionReply)
    returns (outcome: Outcome, trace: seq<Call>)
    // Outbound calls: none before the moderation fetch is reached, then one
    // moderation call on the last message's content, then at most one
    // completion call with the assembled request.
    ensures |trace| <= 2
    ensures trace == [] <==> !ReachesModeration(cfg, body)
    ensures trace != [] ==> ReachesModeration(cfg, body) && trace[0] == Moderation(LastContent(body.msgs))
    ensures |trace| == 2 <==> ReachesCompletion(cfg, body, tok, moderate)
    ensures |trace| == 2 ==> trace[1] == Completion(Assemble(cfg.persona, body.msgs))
    // Success: every gate passed and the completion reply was ok; the
    // stream is that reply's body.
    ensures outcome.Stream? <==>
      ReachesCompletion(cfg, body, tok, moderate) && complete(Assemble(cfg.persona, body.msgs)).Ok?
    ensures outcome.Stream? ==>
      outcome.request == Assemble(cfg.persona, body.msgs)
      && outcome.body == complete(outcome.request).body
    // Which gate a failure comes from.
    ensures cfg.apiKey == "" ==> outcome == Failure(ConfigurationError)
    ensures cfg.apiKey != "" && !ReachesModeration(cfg, body) ==> outcome == Failure(MalformedRequest)
    ensures ReachesModeration(cfg, body) && !moderate(LastContent(body.msgs)).Verdict? ==>
      outcome == Failure(UpstreamError)
    ensures ReachesModeration(cfg, body) && moderate(LastContent(body.msgs)) == Verdict(true) ==>
      outcome == Failure(ContentRejected)
    ensures (ReachesModeration(cfg, body) && Cleared(moderate(LastContent(body.msgs))) &&
             !WithinBudget(Total(cfg.persona, body.msgs, tok))) ==>
      outcome == Failure(BudgetExceeded)
    ensures ReachesCompletion(cfg, body, tok, moderate) && !complete(Assemble(cfg.persona, body.msgs)).Ok? ==>
      outcome == Failure(UpstreamError)
  {
    trace := [];
    if cfg.apiKey == "" {
      return Failure(ConfigurationError), trace;
    }
    if !body.Messages? {
      // Unparseable, falsy data, no `messages`, or a `messages` that
      // `forEach` cannot walk: each throws before anything is sent.
      return Failure(MalformedRequest), trace;
    }
    var reqMessages := body.msgs;
    var tokenCount := CountTokens(reqMessages, tok);
    if reqMessages == [] {
      // Reading `.content` of the missing last element throws while the
      // moderation request body is built, before the fetch.
      return Failure(MalformedRequest), trace;
    }
    var input := reqMessages[|reqMessages| - 1].content;
    trace := trace + [Moderation(input)];
    var moderation := moderate(input);
    match moderation {
      case Verdict(flagged) =>
        if flagged {
          return Failure(ContentRejected), trace;
        }
      case _ =>
        return Failure(UpstreamError), trace;
    }
    tokenCount := tokenCount + tok(cfg.persona);
    if tokenCount >= MaxTokens {
      return Failure(BudgetExceeded), trace;
    }
    var chatRequestOpts := Assemble(cfg.persona, reqMessages);
    trace := trace + [Completion(chatRequestOpts)];
    var chatResponse := complete(chatRequestOpts);
    if !chatResponse.Ok? {
      return Failure(UpstreamError), trace;
    }
    outcome := Stream(chatRequestOpts, chatResponse.body);
  }

  /** The response sent to the client: the upstream stream as an event
      stream with status 200, or the uniform error for every failure. */
  function Respond(outcome: Outcome): (r: HttpResponse)
    ensures r.status == 200 <==> outcome.Stream?
    ensures outcome.Failure? ==> r == UniformError
    ensures outcome.Stream? ==> r.contentType == "text/event-stream" && r.payload == EventStream(outcome.body)
  {
    match outcome
    case Stream(_, bytes) => HttpResponse(200, "text/event-stream", EventStream(bytes))
    case Failure(_) => UniformError
  }

  /** The client can tell two outcomes apart only by success against
      failure and by the streamed bytes: never by the cause of a failure. */
  lemma ResponseRevealsOnlyBytes(o1: Outcome, o2: Outcome)
    ensures Respond(o1) == Respond(o2) <==>
      (o1.Failure? && o2.Failure?) || (o1.Stream? && o2.Stream? && o1.body == o2.body)
  {
  }
}
