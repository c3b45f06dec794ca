/** Token accounting: every message's content is tokenized and summed, the
    persona prompt's tokens are added, and a total at or above the ceiling
    rejects the request. */
module TokenBudget {
  import opened ChatTypes

  /** The ceiling: a total of `MaxTokens` or more is rejected. */
  const MaxTokens: nat := 4000

  /** Tokens of all message contents, summed first to last. */
  function SumTokens(msgs: seq<Message>, tok: Tokenizer): nat
  {
    if msgs == [] then 0
    else SumTokens(msgs[..|msgs| - 1], tok) + tok(msgs[|msgs| - 1].content)
  }

  /** The budgeted total: the conversation plus the persona prompt. */
  function Total(persona: string, msgs: seq<Message>, tok: Tokenizer): nat
  {
    SumTokens(msgs, tok) + tok(persona)
  }

  /** The budget gate passes only strictly below the ceiling. */
  predicate WithinBudget(total: nat)
  {
    total < MaxTokens
  }

  /** The `forEach` loop that accumulates `tokenCount` over the messages. */
  method CountTokens(msgs: seq<Message>, tok: Tokenizer) returns (tokenCount: nat)
    ensures tokenCount == SumTokens(msgs, tok)
  {
    tokenCount := 0;
    for i := 0 to |msgs|
      invariant tokenCount == SumTokens(msgs[..i], tok)
    {
      assert msgs[..i + 1][..i] == msgs[..i];
      tokenCount := tokenCount + tok(msgs[i].content);
    }
    assert msgs[..|msgs|] == msgs;
  }

  /** The sum over a concatenation is the sum of the sums. */
  lemma {:induction false} SumTokensAppend(a: seq<Message>, b: seq<Message>, tok: Tokenizer)
    ensures SumTokens(a + b, tok) == SumTokens(a, tok) + SumTokens(b, tok)
  {
    if b == [] {
      assert a + b == a;
    } else {
      var init := b[..|b| - 1];
      assert (a + b)[..|a + b| - 1] == a + init;
      SumTokensAppend(a, init, tok);
    }
  }

  /** Every message's tokens are part of the sum. */
  lemma {:induction false} SumTokensCoversEach(msgs: seq<Message>, i: nat, tok: Tokenizer)
    requires i < |msgs|
    ensures tok(msgs[i].content) <= SumTokens(msgs, tok)
  {
    assert msgs == msgs[..i] + [msgs[i]] + msgs[i + 1..];
    SumTokensAppend(msgs[..i] + [msgs[i]], msgs[i + 1..], tok);
    SumTokensAppend(msgs[..i], [msgs[i]], tok);
    assert SumTokens([msgs[i]], tok) == tok(msgs[i].content) by {
      assert [msgs[i]][..0] == [];
    }
  }

  /** The order of the messages does not change the total. */
  lemma SumTokensOrderFree(a: seq<Message>, b: seq<Message>, tok: Tokenizer)
    ensures SumTokens(a + b, tok) == SumTokens(b + a, tok)
  {
    SumTokensAppend(a, b, tok);
    SumTokensAppend(b, a, tok);
  }

  /** A conversation that is over budget stays over budget however many
      messages the client appends to it. */
  lemma OverBudgetPersists(persona: string, msgs: seq<Message>, more: seq<Message>, tok: Tokenizer)
    requires !WithinBudget(Total(persona, msgs, tok))
    ensures !WithinBudget(Total(persona, msgs + more, tok))
  {
    SumTokensAppend(msgs, more, tok);
  }

  /** One message that, together with the persona, reaches the ceiling is
      enough to reject the whole conversation. */
  lemma OneLargeMessageExceeds(persona: string, msgs: seq<Message>, i: nat, tok: Tokenizer)
    requires i < |msgs| && tok(msgs[i].content) + tok(persona) >= MaxTokens
    ensures !WithinBudget(Total(persona, msgs, tok))
  {
    SumTokensCoversEach(msgs, i, tok);
  }

  /** The ceiling is strict: 3999 tokens pass and 4000 do not. */
  lemma CeilingIsStrict()
    ensures WithinBudget(MaxTokens - 1) && !WithinBudget(MaxTokens)
    ensures MaxTokens == 4000
  {
  }
}
