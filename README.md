# Chat proxy POST handler, modelled in Dafny

The repository is a server-side proxy between a chat client and a language-model
provider. Its one route, `POST /api/chat`, is the whole of its logic:

1. fail if the provider API key is not set;
2. parse the JSON body and fail if it is unparseable, falsy, or has no `messages`;
3. add up the tokenizer's count for every message's content;
4. send the content of the **last** message to the moderation service and fail if
   the reply flags it (or cannot be read as a verdict);
5. add the tokens of the fixed persona prompt and fail if the total is 4000 or more;
6. build the completion request: the persona as a `system` message followed by
   the client's messages unchanged, model `gpt-3.5-turbo`, temperature 0.9,
   `stream: true`;
7. send it to the completion service, fail if the reply is not ok, and otherwise
   stream the upstream body back as `text/event-stream`.

Every failure is caught at the end of the handler and turned into one response:
status 500 with `{ error: "There was an error processing your request" }`.

The model has four modules:

- `ChatTypes` (`chat_types.dfy`): messages, the assembled request, the replies
  the two upstream services can give, the outbound calls, the failure causes
  and the handler's `Outcome`.
- `TokenBudget` (`token_budget.dfy`): the recursive specification `SumTokens`,
  the imperative `CountTokens` loop proved equal to it, the 4000 ceiling, and
  lemmas about the budget.
- `PromptAssembly` (`prompt_assembly.dfy`): `Assemble` and its inverse
  `Disassemble`, with the layout, the round trip both ways, and injectivity.
- `ChatHandler` (`chat_handler.dfy`): the handler `Post` and the response
  mapping `Respond`.

The environment and the outside world are inputs to the model:

- The API key and the persona text form a `Config` value. A key of `""` is the
  falsy, unset key.
- The tokenizer is a parameter `tok: string -> nat`.
- The moderation service is a parameter `moderate: string -> ModerationReply`.
- The completion service is a parameter
  `complete: AssembledRequest -> CompletionReply`.

`Post` returns the `Outcome` and a trace of the outbound calls it made, in order:
`Moderation(text)` and `Completion(request)`. A call counts as made once the
fetch is issued, whether or not it then succeeds.

Behaviour of the code that the model keeps:

- The moderation reply's HTTP status is never checked. A reply fails the
  request only when it cannot be read as a verdict or when it is flagged.
  Unreadable means one of: `fetch` rejects, the body is not JSON, `results` is
  missing, or `results` has no first element. A `flagged` field that is absent
  reads as not flagged.
- An empty `messages` array is truthy, so it passes the `messages` check. The
  token loop then runs over nothing. The handler fails when it reads the
  `content` of the missing last element while building the moderation request.
  So nothing is sent.
- The moderation call comes before the budget check. An over-budget request
  therefore still makes one moderation call, but never a completion call.

## Model

| member | source | states |
|---|---|---|
| `ChatHandler.Post` | src/routes/api/chat/+server.ts:12-98 | A missing key, or a body that is unparseable, falsy, without `messages`, with a non-list `messages`, or with an empty list, gives a failure and an empty trace. Otherwise the first and only moderation call is on the last message's content. A completion call, which is the second and last call, is made exactly when the verdict is readable and unflagged and the total (all message tokens plus persona tokens) is below 4000. Its request is `Assemble(persona, messages)`. The outcome is a stream exactly when that call was made and its reply is ok; the stream carries that request and the reply's body. Each other case is a failure whose cause names the gate that failed. |
| `TokenBudget.CountTokens` | src/routes/api/chat/+server.ts:30-35 | The running `tokenCount` after the loop equals `SumTokens` over all messages. The loop invariant keeps it equal to the sum over the prefix processed so far. |
| `TokenBudget.SumTokensAppend` | src/routes/api/chat/+server.ts:30-35 | The token sum over a concatenation of two conversations is the sum of their token sums. |
| `TokenBudget.SumTokensCoversEach` | src/routes/api/chat/+server.ts:32-35 | Every message's token count is included in the total, so none exceeds it. |
| `TokenBudget.SumTokensOrderFree` | src/routes/api/chat/+server.ts:32-35 | Reordering the two parts of a conversation leaves the token sum unchanged. |
| `TokenBudget.OverBudgetPersists` | src/routes/api/chat/+server.ts:57-61 | If a conversation is rejected by the budget, every extension of it (more messages appended) is rejected too. |
| `TokenBudget.OneLargeMessageExceeds` | src/routes/api/chat/+server.ts:57-61 | If any single message's tokens plus the persona's tokens reach 4000, the whole conversation is over budget. |
| `TokenBudget.CeilingIsStrict` | src/routes/api/chat/+server.ts:59-61 | The ceiling is 4000 and strict: a total of 3999 passes, and a total of 4000 is rejected. |
| `PromptAssembly.AssembleLayout` | src/routes/api/chat/+server.ts:63-73 | The assembled list has one more message than the conversation. Its first message is `{system, persona}`. The rest equals the conversation, element by element and in order. Model `gpt-3.5-turbo`, temperature 0.9 and `stream = true` are fixed. |
| `PromptAssembly.DisassembleAssemble` | src/routes/api/chat/+server.ts:63-66 | Removing the leading system message from an assembled request gives back exactly the persona and the client's conversation. |
| `PromptAssembly.AssembleDisassemble` | src/routes/api/chat/+server.ts:63-73 | Every request that starts with a system message and has the fixed options is the assembly of its persona and the rest of its messages. |
| `PromptAssembly.AssembleInjective` | src/routes/api/chat/+server.ts:63-66 | Different conversations or personas never produce the same completion request. |
| `ChatHandler.Respond` | src/routes/api/chat/+server.ts:89-96 | Status 200 exactly for a stream, and then content type `text/event-stream` with the upstream bytes unaltered. Every failure maps to the same response: 500 with the fixed error text. |
| `ChatHandler.ResponseRevealsOnlyBytes` | src/routes/api/chat/+server.ts:89-96 | Two outcomes give the same client response exactly when both are failures, whatever their causes, or both are streams of the same bytes. |

## Left out

- The `fetch` calls, HTTP headers, bearer authentication and JSON encoding and decoding are left out. These are I/O. The services are function parameters, and the trace records the values that would be sent.
- Streaming is left out. The upstream body is a `Bytes` value passed through whole. Incremental forwarding and client disconnection are not modelled.
- The tokenizer library is not part of this model. It is the parameter `tok`. A tokenizer that throws is not modelled.
- The persona text is not transcribed. It is the `persona` field of `Config`. Every property holds for any persona text, so it holds for the fixed one.
- The temperature 0.9 is the tag `PointNine`, not a number. Floating point is out of scope.
- Message elements that are not `{role, content}` objects with string content are not modelled. This includes non-string content. The tokenizer's behaviour on such values is not visible.
- Edge-runtime `config`, environment loading and `console.error` logging are left out. They are framework plumbing.
- The error body of a non-ok completion reply is left out. The handler reads it and throws it, but the client never sees it. `NotOk` carries no payload.
