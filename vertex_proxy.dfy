/**
 * The text-only proxy (`app_vertex.py`): roles are remapped without any
 * filtering or validation, generation parameters are passed on only when
 * the request has them, and a stream forwards the backend's non-empty texts
 * between a role chunk and a closing `stop` chunk.
 */
module VertexProxy {
  import opened Wrappers
  import opened Chat

  /** A chat message; an absent content is the empty string, an absent role the empty string too. */
  datatype Message = Message(role: string, content: string)

  datatype Request = Request(messages: seq<Message>, params: Params)

  const TEMPERATURE := "temperature"
  const TOP_P := "top_p"
  const MAX_OUTPUT_TOKENS := "max_output_tokens"

  /** The turn of one message: `assistant` becomes a `model` turn, `user` stays, every other role is dropped. */
  function MessageTurn(m: Message): (r: Option<Turn>)
    ensures r.Some? <==> m.role == "user" || m.role == "assistant"
    ensures r.Some? ==> r.value.parts == [TextPart(m.content)]
    ensures r.Some? ==> (r.value.role == "model" <==> m.role == "assistant")
  {
    if m.role == "assistant" then Some(Turn("model", [TextPart(m.content)]))
    else if m.role == "user" then Some(Turn("user", [TextPart(m.content)]))
    else None
  }

  /** The turns of a conversation, in message order. */
  function Turns(messages: seq<Message>): seq<Turn> {
    if messages == [] then []
    else Turns(messages[..|messages| - 1]) + ToSeq(MessageTurn(messages[|messages| - 1]))
  }

  /** The stored instruction: the content of the last system message, even when empty. */
  function StoredInstruction(messages: seq<Message>): (r: Option<string>)
    ensures r.None? <==> forall k :: 0 <= k < |messages| ==> messages[k].role != "system"
    ensures r.Some? ==> exists k :: (0 <= k < |messages| && messages[k].role == "system"
      && messages[k].content == r.value
      && forall j :: k < j < |messages| ==> messages[j].role != "system")
  {
    if messages == [] then None
    else
      var last := messages[|messages| - 1];
      if last.role == "system" then Some(last.content)
      else StoredInstruction(messages[..|messages| - 1])
  }

  /** The instruction handed to the model: the stored one, only when it is non-empty. */
  function PassedInstruction(messages: seq<Message>): (r: Option<string>)
    ensures r.Some? <==> StoredInstruction(messages).Some? && StoredInstruction(messages).value != ""
    ensures r.Some? ==> r == StoredInstruction(messages)
  {
    match StoredInstruction(messages)
    case Some(s) => if s != "" then Some(s) else None
    case None => None
  }

  /** The message loop: overwrites the instruction on each system message and appends each turn. */
  method TranslateMessages(messages: seq<Message>) returns (system: Option<string>, contents: seq<Turn>)
    ensures system == StoredInstruction(messages)
    ensures contents == Turns(messages)
  {
    system, contents := None, [];
    var i := 0;
    while i < |messages|
      invariant 0 <= i <= |messages|
      invariant system == StoredInstruction(messages[..i])
      invariant contents == Turns(messages[..i])
    {
      var m := messages[i];
      assert messages[..i + 1][..i] == messages[..i];
      if m.role == "system" {
        system := Some(m.content);
      } else if m.role == "assistant" {
        contents := contents + [Turn("model", [TextPart(m.content)])];
      } else if m.role == "user" {
        contents := contents + [Turn("user", [TextPart(m.content)])];
      }
      i := i + 1;
    }
    assert messages[..i] == messages;
  }

  /** The configuration entries: exactly the parameters the request has, under their own names. */
  function ConfigEntries(p: Params): (m: map<string, Number>)
    ensures m.Keys <= {TEMPERATURE, TOP_P, MAX_OUTPUT_TOKENS}
    ensures TEMPERATURE in m <==> p.temperature.Some?
    ensures TOP_P in m <==> p.topP.Some?
    ensures MAX_OUTPUT_TOKENS in m <==> p.maxOutputTokens.Some?
    ensures p.temperature.Some? ==> m[TEMPERATURE] == p.temperature.value
    ensures p.topP.Some? ==> m[TOP_P] == p.topP.value
    ensures p.maxOutputTokens.Some? ==> m[MAX_OUTPUT_TOKENS] == p.maxOutputTokens.value
  {
    (if p.temperature.Some? then map[TEMPERATURE := p.temperature.value] else map[])
    + (if p.topP.Some? then map[TOP_P := p.topP.value] else map[])
    + (if p.maxOutputTokens.Some? then map[MAX_OUTPUT_TOKENS := p.maxOutputTokens.value] else map[])
  }

  /** The generation configuration, filled key by key; none at all when the request has no parameter. */
  method BuildConfig(p: Params) returns (config: Option<map<string, Number>>)
    ensures config.None? <==> p.temperature.None? && p.topP.None? && p.maxOutputTokens.None?
    ensures config.Some? ==> config.value == ConfigEntries(p)
  {
    var entries: map<string, Number> := map[];
    if p.temperature.Some? {
      entries := entries[TEMPERATURE := p.temperature.value];
    }
    if p.topP.Some? {
      entries := entries[TOP_P := p.topP.value];
    }
    if p.maxOutputTokens.Some? {
      entries := entries[MAX_OUTPUT_TOKENS := p.maxOutputTokens.value];
    }
    assert entries == ConfigEntries(p);
    if entries == map[] {
      assert TEMPERATURE !in entries && TOP_P !in entries && MAX_OUTPUT_TOKENS !in entries;
      config := None;
    } else {
      config := Some(entries);
    }
  }

  /** Everything the backend call is made with. */
  datatype Call = Call(
    model: string,
    instruction: Option<string>,
    turns: seq<Turn>,
    config: Option<map<string, Number>>,
    stream: bool)

  /** The call: the default model when none is named, the instruction only when non-empty, no configuration when no parameter is set. */
  function CallFor(request: Request): (c: Call)
    ensures request.params.model.None? ==> c.model == "gemini-2.5-pro"
    ensures request.params.model.Some? ==> c.model == request.params.model.value
    ensures c.instruction == PassedInstruction(request.messages)
    ensures c.instruction.Some? ==> c.instruction == StoredInstruction(request.messages) && c.instruction.value != ""
    ensures c.config.None? <==> request.params.temperature.None? && request.params.topP.None? && request.params.maxOutputTokens.None?
    ensures c.config.Some? ==> c.config.value == ConfigEntries(request.params)
    ensures c.turns == Turns(request.messages) && c.stream == request.params.stream
  {
    var config := ConfigEntries(request.params);
    Call(
      request.params.model.GetOr(DEFAULT_MODEL),
      PassedInstruction(request.messages),
      Turns(request.messages),
      if config == map[] then None else Some(config),
      request.params.stream)
  }

  /** A chunk forwarding backend text. */
  function TextChunk(id: string, created: int, model: string, text: string): Event {
    Chunk(id, created, model, Delta(None, Some(text)), None)
  }

  /** The backend's non-empty texts, in order. */
  function NonEmptyTexts(elements: seq<StreamElement>): (texts: seq<string>)
    ensures |texts| <= |elements|
    ensures forall k :: 0 <= k < |texts| ==> texts[k] != ""
  {
    if elements == [] then []
    else
      var last := elements[|elements| - 1];
      NonEmptyTexts(elements[..|elements| - 1]) + if last.text != "" then [last.text] else []
  }

  /** One chunk per backend element with non-empty text, carrying that text, in order. */
  function TextChunks(id: string, created: int, model: string, elements: seq<StreamElement>): (r: seq<Event>)
    ensures |r| <= |elements|
    ensures forall k :: 0 <= k < |r| ==> (r[k].Chunk? && r[k].delta == Delta(None, r[k].delta.content)
      && r[k].delta.content.Some? && r[k].delta.content.value != "" && r[k].finish.None?
      && r[k].id == id && r[k].created == created && r[k].model == model)
    ensures |r| == |NonEmptyTexts(elements)|
    ensures forall k :: 0 <= k < |r| ==> r[k] == TextChunk(id, created, model, NonEmptyTexts(elements)[k])
  {
    if elements == [] then []
    else
      var last := elements[|elements| - 1];
      TextChunks(id, created, model, elements[..|elements| - 1])
        + if last.text != "" then [TextChunk(id, created, model, last.text)] else []
  }

  /**
   * The events `generate_stream` yields. The backend call and iteration are
   * not guarded: if either raises, the stream stops where it is, without
   * closing chunk or `[DONE]`.
   */
  function StreamEvents(id: string, created: int, model: string, backend: StreamBackend): seq<Event> {
    match backend
    case CallFailed(_) => []
    case Streamed(elements, failure) =>
      [RoleChunk(id, created, model)] + TextChunks(id, created, model, elements)
        + if failure.None? then [FinalChunk(id, created, model), Done] else []
  }

  /** The streaming generator: yields into `events` one event at a time. */
  method GenerateStream(id: string, created: int, model: string, backend: StreamBackend) returns (events: seq<Event>)
    ensures events == StreamEvents(id, created, model, backend)
  {
    if backend.CallFailed? {
      return [];
    }
    var elements := backend.elements;
    events := [RoleChunk(id, created, model)];
    var i := 0;
    while i < |elements|
      invariant 0 <= i <= |elements|
      invariant events == [RoleChunk(id, created, model)] + TextChunks(id, created, model, elements[..i])
    {
      assert elements[..i + 1][..i] == elements[..i];
      var text := elements[i].text;
      if text != "" {
        events := events + [Chunk(id, created, model, Delta(None, Some(text)), None)];
      }
      i := i + 1;
    }
    assert elements[..i] == elements;
    if backend.failure.None? {
      events := events + [Chunk(id, created, model, Delta(None, None), Some(FinishStop)), Done];
    }
  }

  /** The non-streaming reply: always finish reason `stop`; absent usage counts as zeros. */
  function CompletionOf(id: string, created: int, model: string, single: SingleBackend): (r: Reply)
    ensures r.ErrorReply? <==> single.SingleFailed?
    ensures r.ErrorReply? ==> r.status == 500 && r.error == ServerError(single.error)
    ensures !r.StreamReply?
    ensures r.CompletionReply? ==> (r.completion.finish == FinishStop && r.completion.content == single.response.text
      && r.completion.id == id && r.completion.created == created && r.completion.model == model)
    ensures r.CompletionReply? && single.response.usage.Some? ==> r.completion.usage == single.response.usage.value
    ensures r.CompletionReply? && single.response.usage.None? ==> r.completion.usage == Usage(0, 0, 0)
  {
    match single
    case SingleFailed(error) => ErrorReply(500, ServerError(error))
    case Responded(response) =>
      CompletionReply(Completion(id, created, model, response.text, FinishStop, ReportedUsage(response.usage)))
  }

  /** The endpoint; a missing body makes reading `messages` fail with status 500. */
  function Handle(body: Option<Request>, backend: Backend, id: string, created: int): (r: Reply)
    ensures r.ErrorReply? ==> r.status == 500
    ensures r.ErrorReply? <==> (body.None? || (!body.value.params.stream && backend.single.SingleFailed?))
    ensures body.None? ==> r == ErrorReply(500, EmptyBody)
    ensures r.StreamReply? <==> body.Some? && body.value.params.stream
    ensures r.StreamReply? ==> r.events == StreamEvents(id, created, CallFor(body.value).model, backend.stream)
    ensures body.Some? && !body.value.params.stream
      ==> r == CompletionOf(id, created, CallFor(body.value).model, backend.single)
  {
    match body
    case None => ErrorReply(500, EmptyBody)
    case Some(request) =>
      var call := CallFor(request);
      if call.stream then StreamReply(StreamEvents(id, created, call.model, backend.stream))
      else CompletionOf(id, created, call.model, backend.single)
  }

  /**
   * `chat_completions`, step by step as the source runs it; `call` is what
   * the backend is invoked with, `None` when it is not invoked.
   */
  method ChatCompletions(body: Option<Request>, backend: Backend, id: string, created: int)
    returns (call: Option<Call>, reply: Reply)
    ensures call == if body.Some? then Some(CallFor(body.value)) else None
    ensures reply == Handle(body, backend, id, created)
  {
    if body.None? {
      return None, ErrorReply(500, EmptyBody);
    }
    var request := body.value;
    var model := request.params.model.GetOr(DEFAULT_MODEL);
    var system, contents := TranslateMessages(request.messages);
    var instruction := if system.Some? && system.value != "" then system else None;
    var config := BuildConfig(request.params);
    call := Some(Call(model, instruction, contents, config, request.params.stream));
    if request.params.stream {
      var events := GenerateStream(id, created, model, backend.stream);
      reply := StreamReply(events);
    } else {
      reply := CompletionOf(id, created, model, backend.single);
    }
  }

  // ---------------------------------------------------------------------
  // Properties

  lemma {:induction false} TurnsAppend(a: seq<Message>, b: seq<Message>)
    ensures Turns(a + b) == Turns(a) + Turns(b)
    decreases |b|
  {
    if b == [] {
      assert a + b == a;
    } else {
      var b' := b[..|b| - 1];
      assert (a + b)[..|a + b| - 1] == a + b';
      TurnsAppend(a, b');
    }
  }

  predicate Conversational(m: Message) {
    m.role == "user" || m.role == "assistant"
  }

  function ConversationalOnly(messages: seq<Message>): (r: seq<Message>)
    ensures forall k :: 0 <= k < |r| ==> Conversational(r[k])
  {
    if messages == [] then []
    else
      var last := messages[|messages| - 1];
      ConversationalOnly(messages[..|messages| - 1]) + if Conversational(last) then [last] else []
  }

  /**
   * The turns are exactly the user and assistant messages, in order, each as
   * one text part holding its content (empty content included).
   */
  lemma {:induction false} TurnsOfConversation(messages: seq<Message>)
    ensures var kept := ConversationalOnly(messages);
      |Turns(messages)| == |kept|
      && forall k :: 0 <= k < |kept| ==>
           Turns(messages)[k] == Turn(if kept[k].role == "assistant" then "model" else "user", [TextPart(kept[k].content)])
    decreases |messages|
  {
    if messages != [] {
      TurnsOfConversation(messages[..|messages| - 1]);
    }
  }

  lemma {:induction false} TextChunksText(id: string, created: int, model: string, elements: seq<StreamElement>)
    ensures DeltaText(TextChunks(id, created, model, elements)) == StreamedText(elements)
    decreases |elements|
  {
    if elements != [] {
      var init, last := elements[..|elements| - 1], elements[|elements| - 1];
      TextChunksText(id, created, model, init);
      var extra := if last.text != "" then [TextChunk(id, created, model, last.text)] else [];
      DeltaTextAppend(TextChunks(id, created, model, init), extra);
      if extra != [] {
        assert extra[..0] == [];
      }
    }
  }

  /** A client that concatenates the deltas gets exactly the backend's texts, however the stream ends. */
  lemma StreamText(id: string, created: int, model: string, elements: seq<StreamElement>, failure: Option<string>)
    ensures DeltaText(StreamEvents(id, created, model, Streamed(elements, failure))) == StreamedText(elements)
  {
    var head := [RoleChunk(id, created, model)];
    var chunks := TextChunks(id, created, model, elements);
    var tail := if failure.None? then [FinalChunk(id, created, model), Done] else [];
    assert StreamEvents(id, created, model, Streamed(elements, failure)) == head + chunks + tail;
    FrameCarriesNoText(id, created, model, "");
    DeltaTextFramed(head, chunks, tail);
    TextChunksText(id, created, model, elements);
  }

  /**
   * A completed stream is the role chunk, one chunk per non-empty text, the
   * closing `stop` chunk and a single final `[DONE]`, all with one id and
   * time; this variant never sends an error record.
   */
  lemma StreamCompleted(id: string, created: int, model: string, elements: seq<StreamElement>)
    ensures var events := StreamEvents(id, created, model, Streamed(elements, None));
      && events[0] == RoleChunk(id, created, model)
      && events[|events| - 2] == FinalChunk(id, created, model)
      && DoneOnceAtEnd(events)
      && SharesIdentity(events, id, created, model)
      && (forall k :: 0 <= k < |events| ==> !events[k].ErrorRecord?)
      && (forall k :: 1 <= k < |events| - 2 ==> events[k].delta.content.Some? && events[k].delta.content.value != "")
  {
    var chunks := TextChunks(id, created, model, elements);
    var events := StreamEvents(id, created, model, Streamed(elements, None));
    assert events == [RoleChunk(id, created, model)] + chunks + [FinalChunk(id, created, model), Done];
    forall k | 1 <= k < |events| - 2 ensures events[k] == chunks[k - 1] { }
  }

  /**
   * When the backend raises, the stream is cut: what was sent shares one
   * identity, but no `[DONE]` and no error record is ever sent.
   */
  lemma StreamCutOnFailure(id: string, created: int, model: string, backend: StreamBackend)
    requires backend.CallFailed? || backend.failure.Some?
    ensures SharesIdentity(StreamEvents(id, created, model, backend), id, created, model)
    ensures var events := StreamEvents(id, created, model, backend);
      forall k :: 0 <= k < |events| ==> !events[k].Done? && !events[k].ErrorRecord?
  {
    if backend.Streamed? {
      var chunks := TextChunks(id, created, model, backend.elements);
      var events := StreamEvents(id, created, model, backend);
      assert events == [RoleChunk(id, created, model)] + chunks;
      forall k | 1 <= k < |events| ensures events[k] == chunks[k - 1] { }
    }
  }

  /** The two-element stream "A", "B": role chunk, "A", "B", closing `stop` chunk, `[DONE]`. */
  lemma TwoChunkExample(id: string, created: int, model: string)
    ensures StreamEvents(id, created, model, Streamed([StreamElement("A", None), StreamElement("B", None)], None))
      == [RoleChunk(id, created, model), TextChunk(id, created, model, "A"), TextChunk(id, created, model, "B"),
          FinalChunk(id, created, model), Done]
  {
    var elements := [StreamElement("A", None), StreamElement("B", None)];
    assert elements[..1][..0] == [];
    assert TextChunks(id, created, model, elements[..1]) == [TextChunk(id, created, model, "A")];
    assert elements[..|elements| - 1] == elements[..1];
    assert TextChunks(id, created, model, elements)
      == [TextChunk(id, created, model, "A"), TextChunk(id, created, model, "B")];
  }
}
