/**
 * How the two proxies relate: on plain-text conversations they send the
 * backend the same turns and instruction, their generation parameters agree
 * wherever the request sets one, and both streams carry the backend's text
 * unchanged.
 */
module Variants {
  import opened Wrappers
  import opened Chat
  import GenAiRequest
  import GenAiResponse
  import VertexProxy

  /** A text-only message seen by the multimodal proxy: its content is a JSON string. */
  function Lift(m: VertexProxy.Message): GenAiRequest.Message {
    GenAiRequest.Message(m.role, GenAiRequest.Str(m.content))
  }

  function LiftAll(messages: seq<VertexProxy.Message>): (r: seq<GenAiRequest.Message>)
    ensures |r| == |messages|
    ensures forall k :: 0 <= k < |r| ==> r[k] == Lift(messages[k])
  {
    seq(|messages|, k requires 0 <= k < |messages| => Lift(messages[k]))
  }

  /** Only the roles both proxies know, each with non-empty text. */
  predicate Plain(messages: seq<VertexProxy.Message>) {
    forall k :: 0 <= k < |messages| ==>
      (messages[k].role == "user" || messages[k].role == "assistant" || messages[k].role == "system")
      && messages[k].content != ""
  }

  /** On a plain conversation both proxies build the same turns and the same instruction. */
  lemma {:induction false} PlainConversationsAgree(messages: seq<VertexProxy.Message>, fetch: GenAiRequest.Fetcher)
    requires Plain(messages)
    ensures GenAiRequest.Turns(LiftAll(messages), fetch) == VertexProxy.Turns(messages)
    ensures GenAiRequest.LastSystem(LiftAll(messages))
      == if VertexProxy.PassedInstruction(messages).Some?
         then Some(GenAiRequest.Str(VertexProxy.PassedInstruction(messages).value)) else None
    decreases |messages|
  {
    if messages != [] {
      var init := messages[..|messages| - 1];
      assert LiftAll(messages)[..|messages| - 1] == LiftAll(init);
      PlainConversationsAgree(init, fetch);
    }
  }

  /** An empty user message: the text-only proxy still sends it as a turn, the multimodal one drops it. */
  lemma EmptyContentDiverges(fetch: GenAiRequest.Fetcher)
    ensures VertexProxy.Turns([VertexProxy.Message("user", "")]) == [Turn("user", [TextPart("")])]
    ensures GenAiRequest.Turns(LiftAll([VertexProxy.Message("user", "")]), fetch) == []
  {
    var ms := [VertexProxy.Message("user", "")];
    assert ms[..0] == [];
    assert LiftAll(ms)[..0] == [];
  }

  /**
   * The multimodal proxy's configuration holds every parameter the text-only
   * proxy passes on, and its defaults (1.0, 0.95, 8192) for the others.
   */
  lemma ConfigsAgree(p: Params)
    ensures var rich, entries := GenAiRequest.ConfigFor(p), VertexProxy.ConfigEntries(p);
      && (if VertexProxy.TEMPERATURE in entries then rich.temperature == entries[VertexProxy.TEMPERATURE]
          else rich.temperature == GenAiRequest.DEFAULT_TEMPERATURE)
      && (if VertexProxy.TOP_P in entries then rich.topP == entries[VertexProxy.TOP_P]
          else rich.topP == GenAiRequest.DEFAULT_TOP_P)
      && (if VertexProxy.MAX_OUTPUT_TOKENS in entries then rich.maxOutputTokens == entries[VertexProxy.MAX_OUTPUT_TOKENS]
          else rich.maxOutputTokens == GenAiRequest.DEFAULT_MAX_OUTPUT_TOKENS)
  {
  }

  /** Over the same backend stream, a client concatenating deltas reads the same text from either proxy. */
  lemma StreamsCarrySameText(id: string, created: int, model: string, elements: seq<StreamElement>, failure: Option<string>)
    ensures DeltaText(GenAiResponse.StreamEvents(id, created, model, Streamed(elements, failure)))
      == DeltaText(VertexProxy.StreamEvents(id, created, model, Streamed(elements, failure)))
      == StreamedText(elements)
  {
    GenAiResponse.StreamText(id, created, model, elements, failure);
    VertexProxy.StreamText(id, created, model, elements, failure);
  }

  /**
   * When the backend's finish reason maps to `stop`, both proxies answer a
   * single response with the same completion, usage included.
   */
  lemma CompletionsAgree(id: string, created: int, model: string, single: SingleBackend)
    requires single.Responded? ==> GenAiResponse.CompletionFinish(single.response.reason) == FinishStop
    ensures GenAiResponse.CompletionOf(id, created, model, single) == VertexProxy.CompletionOf(id, created, model, single)
  {
  }
}
