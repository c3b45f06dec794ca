/** Prompt assembly: the persona becomes a system message in front of the
    client's conversation, and the fixed generation options are attached. */
module PromptAssembly {
  import opened ChatTypes

  /** The completion request for a conversation. */
  function Assemble(persona: string, msgs: seq<Message>): AssembledRequest
  {
    AssembledRequest(ModelId, [Message(System, persona)] + msgs, PointNine, true)
  }

  /** Splits an assembled request back into the persona and the client's
      conversation; `None` when the request does not start with a system
      message or its options are not the fixed ones. */
  function Disassemble(req: AssembledRequest): (r: Option<(string, seq<Message>)>)
  {
    if req.messages != [] && req.messages[0].role == System
       && req.model == ModelId && req.temperature == PointNine && req.stream
    then Some((req.messages[0].content, req.messages[1..]))
    else None
  }

  /** The layout of the assembled request: one message more than the
      conversation, the persona first, the conversation after it in order
      and unmodified, and the fixed options. */
  lemma AssembleLayout(persona: string, msgs: seq<Message>)
    ensures var r := Assemble(persona, msgs);
      && |r.messages| == |msgs| + 1
      && r.messages[0] == Message(System, persona)
      && r.messages[1..] == msgs
      && (forall i :: 0 <= i < |msgs| ==> r.messages[i + 1] == msgs[i])
      && r.model == ModelId && r.temperature == PointNine && r.stream
  {
  }

  /** Disassembling an assembled request gives back exactly its inputs. */
  lemma DisassembleAssemble(persona: string, msgs: seq<Message>)
    ensures Disassemble(Assemble(persona, msgs)) == Some((persona, msgs))
  {
    assert Assemble(persona, msgs).messages[1..] == msgs;
  }

  /** Every request `Disassemble` accepts is the assembly of what it returns. */
  lemma AssembleDisassemble(req: AssembledRequest)
    requires Disassemble(req).Some?
    ensures Assemble(Disassemble(req).value.0, Disassemble(req).value.1) == req
  {
    assert req.messages == [req.messages[0]] + req.messages[1..];
  }

  /** Distinct conversations (or personas) give distinct requests. */
  lemma AssembleInjective(p1: string, m1: seq<Message>, p2: string, m2: seq<Message>)
    requires Assemble(p1, m1) == Assemble(p2, m2)
    ensures p1 == p2 && m1 == m2
  {
    DisassembleAssemble(p1, m1);
    DisassembleAssemble(p2, m2);
  }
}
