/** The values that flow through the chat proxy's POST handler: the client's
    conversation, the request assembled for the completion service, the
    replies of the two upstream services (as oracles), the outbound calls the
    handler makes, and the handler's outcome. */
module ChatTypes {

  datatype Option<T> = None | Some(value: T)

  /** The roles the chat-completion message type allows. */
  datatype Role = System | User | Assistant

  /** One chat message, `{ role, content }`. */
  datatype Message = Message(role: Role, content: string)

  /** Raw bytes of an upstream response body, passed through untouched. */
  type Bytes = seq<bv8>

  /** The tokenizer library, seen only as a map from text to a token count. */
  type Tokenizer = string -> nat

  /** The model identifier sent with every completion request. */
  const ModelId: string := "gpt-3.5-turbo"

  /** The sampling temperature is a fixed floating-point literal (0.9); the
      model carries it as a tag, not as a number. */
  datatype Temperature = PointNine

  /** The body of the completion request: model, messages, temperature and
      the streaming flag. */
  datatype AssembledRequest = AssembledRequest(
    model: string,
    messages: seq<Message>,
    temperature: Temperature,
    stream: bool)

  /** Process-scoped configuration: the API key read from the environment
      (the empty string when it is not set, which JavaScript treats as falsy)
      and the fixed persona prompt text. */
  datatype Config = Config(apiKey: string, persona: string)

  /** What `await request.json()` and the two field reads make of the inbound
      body. */
  datatype RequestBody =
    | Unparseable      // `request.json()` rejects: not JSON
    | Falsy            // parsed, but `null`, `false`, `0` or `""`
    | MissingMessages  // an object whose `messages` is absent or falsy
    | MessagesNotList  // `messages` is truthy but not an array: `forEach` throws
    | Messages(msgs: seq<Message>)

  /** What the moderation fetch and the reading of its reply produce. */
  datatype ModerationReply =
    | ModerationUnreachable  // `fetch` rejects
    | ModerationNotJson      // `moderationRes.json()` rejects
    | NoResults              // `results` missing: the destructuring throws
    | EmptyResults           // `results` is `[]` (or its head is null): `.flagged` throws
    | Verdict(flagged: bool) // the truthiness of `results[0].flagged`

  /** What the completion fetch produces. */
  datatype CompletionReply =
    | CompletionUnreachable  // `fetch` rejects
    | NotOk                  // `!chatResponse.ok`; its error body is thrown
    | Ok(body: Bytes)        // a streamable body

  /** An outbound call, recorded in the order the handler makes it. */
  datatype Call = Moderation(input: string) | Completion(request: AssembledRequest)

  /** Why the handler failed. The handler throws a plain error in each case;
      the cause is kept here so that proofs can say which gate failed, and
      the response mapping erases it. */
  datatype Cause =
    | ConfigurationError  // the API key is not set
    | MalformedRequest    // bad body, no messages, or nothing to moderate
    | UpstreamError       // a service is unreachable, unreadable or not ok
    | ContentRejected     // moderation flagged the last message
    | BudgetExceeded      // the token total reached the ceiling

  /** The handler's result: the upstream stream together with the request
      that produced it, or a failure. */
  datatype Outcome = Stream(request: AssembledRequest, body: Bytes) | Failure(cause: Cause)
}
