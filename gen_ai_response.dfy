/**
 * Response side of the multimodal proxy (`app_vertex_gen_ai.py`): finish
 * reasons, the server-sent event stream, the single completion, and the
 * endpoint as a whole.
 *
 * A stream is a role chunk, one chunk per backend element, a closing `stop`
 * chunk and `[DONE]`. If the backend raises, the stream ends with one error
 * record and `[DONE]` instead.
 */
module GenAiResponse {
  import opened Wrappers
  import opened Chat
  import opened GenAiRequest

  /** A stream chunk's finish reason; null when the backend reports none or the falsy zero value. */
  function StreamFinish(reason: Option<NativeReason>): (f: Option<Finish>)
    ensures f.Some? <==> reason.Some? && reason.value != Unspecified
    ensures f == Some(FinishLength) <==> reason == Some(MaxTokens)
    ensures f == Some(FinishContentFilter) <==> reason == Some(Safety)
  {
    match reason
    case None => None
    case Some(Unspecified) => None
    case Some(Stop) => Some(FinishStop)
    case Some(MaxTokens) => Some(FinishLength)
    case Some(Safety) => Some(FinishContentFilter)
    case Some(OtherReason(_)) => Some(FinishStop)
  }

  /** A completion's finish reason: `stop` unless the backend reports running out of tokens or a safety stop. */
  function CompletionFinish(reason: Option<NativeReason>): (f: Finish)
    ensures StreamFinish(reason).Some? ==> f == StreamFinish(reason).value
    ensures StreamFinish(reason).None? ==> f == FinishStop
  {
    if reason.Some? && reason.value != Unspecified then
      match reason.value
      case MaxTokens => FinishLength
      case Safety => FinishContentFilter
      case _ => FinishStop
    else FinishStop
  }

  /** The chunk for one backend element: its text, if non-empty, and its mapped finish reason. */
  function ElementChunk(id: string, created: int, model: string, e: StreamElement): Event {
    Chunk(id, created, model, Delta(None, if e.text != "" then Some(e.text) else None), StreamFinish(e.reason))
  }

  function ElementChunks(id: string, created: int, model: string, elements: seq<StreamElement>): (r: seq<Event>)
    ensures |r| == |elements|
  {
    seq(|elements|, k requires 0 <= k < |elements| => ElementChunk(id, created, model, elements[k]))
  }

  /** The events `generate_stream` yields for a backend that behaves as `backend` says. */
  function StreamEvents(id: string, created: int, model: string, backend: StreamBackend): seq<Event> {
    match backend
    case CallFailed(error) => [ErrorRecord(error), Done]
    case Streamed(elements, failure) =>
      [RoleChunk(id, created, model)] + ElementChunks(id, created, model, elements)
        + if failure.Some? then [ErrorRecord(failure.value), Done]
          else [FinalChunk(id, created, model), Done]
  }

  /** The streaming generator: yields into `events` one event at a time. */
  method GenerateStream(id: string, created: int, model: string, backend: StreamBackend) returns (events: seq<Event>)
    ensures events == StreamEvents(id, created, model, backend)
  {
    if backend.CallFailed? {
      events := [ErrorRecord(backend.error), Done];
      return;
    }
    var elements := backend.elements;
    events := [RoleChunk(id, created, model)];
    var i := 0;
    while i < |elements|
      invariant 0 <= i <= |elements|
      invariant |events| == i + 1
      invariant events[0] == RoleChunk(id, created, model)
      invariant forall k :: 0 <= k < i ==> events[k + 1] == ElementChunk(id, created, model, elements[k])
    {
      var e := elements[i];
      var content := if e.text != "" then Some(e.text) else None;
      var finish: Option<Finish> := None;
      if e.reason.Some? && e.reason.value != Unspecified {
        match e.reason.value {
          case Stop => finish := Some(FinishStop);
          case MaxTokens => finish := Some(FinishLength);
          case Safety => finish := Some(FinishContentFilter);
          case _ => finish := Some(FinishStop);
        }
      }
      events := events + [Chunk(id, created, model, Delta(None, content), finish)];
      i := i + 1;
    }
    assert events == [RoleChunk(id, created, model)] + ElementChunks(id, created, model, elements);
    if backend.failure.Some? {
      events := events + [ErrorRecord(backend.failure.value), Done];
    } else {
      events := events + [FinalChunk(id, created, model), Done];
    }
  }

  /**
   * The non-streaming reply: the response text with the mapped finish reason
   * and the reported usage; a raising call gives status 500.
   */
  function CompletionOf(id: string, created: int, model: string, single: SingleBackend): (r: Reply)
    ensures r.ErrorReply? <==> single.SingleFailed?
    ensures r.ErrorReply? ==> r.status == 500 && r.error == ServerError(single.error)
    ensures !r.StreamReply?
    ensures r.CompletionReply? ==> r.completion == Completion(id, created, model, single.response.text,
      CompletionFinish(single.response.reason), ReportedUsage(single.response.usage))
  {
    match single
    case SingleFailed(error) => ErrorReply(500, ServerError(error))
    case Responded(response) =>
      CompletionReply(Completion(id, created, model, response.text, CompletionFinish(response.reason),
                                 ReportedUsage(response.usage)))
  }

  /**
   * The endpoint: a rejected request gets 400 with its error; a prepared one
   * is answered from the backend, as a stream when the request asks for one.
   */
  function Handle(body: Option<Request>, fetch: Fetcher, backend: Backend, id: string, created: int): (r: Reply)
    ensures (r.ErrorReply? && r.status == 400) <==> Prepare(body, fetch).Rejected?
    ensures Prepare(body, fetch).Rejected? ==> r == ErrorReply(400, Prepare(body, fetch).error)
    ensures r.StreamReply? <==> Prepare(body, fetch).Ready? && body.value.params.stream
    ensures r.StreamReply? ==> r.events == StreamEvents(id, created, Prepare(body, fetch).prepared.model, backend.stream)
    ensures Prepare(body, fetch).Ready? && !body.value.params.stream
      ==> r == CompletionOf(id, created, Prepare(body, fetch).prepared.model, backend.single)
  {
    match Prepare(body, fetch)
    case Rejected(error) => ErrorReply(400, error)
    case Ready(p) =>
      if p.stream then StreamReply(StreamEvents(id, created, p.model, backend.stream))
      else CompletionOf(id, created, p.model, backend.single)
  }

  /**
   * `chat_completions`, step by step as the source runs it; `call` is what
   * the backend is invoked with, `None` when it is not invoked.
   */
  method ChatCompletions(body: Option<Request>, fetch: Fetcher, backend: Backend, id: string, created: int)
    returns (call: Option<Prepared>, reply: Reply)
    ensures call == if Prepare(body, fetch).Ready? then Some(Prepare(body, fetch).prepared) else None
    ensures reply == Handle(body, fetch, backend, id, created)
  {
    call := None;
    if body.None? {
      return call, ErrorReply(400, EmptyBody);
    }
    var request := body.value;
    if request.messages == [] {
      return call, ErrorReply(400, NoMessages);
    }
    var system, contents := BuildContents(request.messages, fetch);
    var model := request.params.model.GetOr(DEFAULT_MODEL);
    if contents == [] {
      return call, ErrorReply(400, NoValidContent);
    }
    var bad := FirstBadRole(contents);
    if bad.Some? {
      return call, ErrorReply(400, InvalidRole(bad.value));
    }
    var config := ConfigFor(request.params);
    call := Some(Prepared(model, system, contents, config, request.params.stream));
    if request.params.stream {
      var events := GenerateStream(id, created, model, backend.stream);
      reply := StreamReply(events);
    } else {
      reply := CompletionOf(id, created, model, backend.single);
    }
  }

  // ---------------------------------------------------------------------
  // Properties of the stream

  /** Every stream ends with exactly one `[DONE]`, and every chunk carries the same id, creation time and model. */
  lemma StreamFraming(id: string, created: int, model: string, backend: StreamBackend)
    ensures DoneOnceAtEnd(StreamEvents(id, created, model, backend))
    ensures SharesIdentity(StreamEvents(id, created, model, backend), id, created, model)
  {
    var events := StreamEvents(id, created, model, backend);
    if backend.Streamed? {
      var n := |backend.elements|;
      forall k | 0 <= k < |events| - 1 ensures !events[k].Done? {
        if 1 <= k <= n {
          assert events[k] == ElementChunk(id, created, model, backend.elements[k - 1]);
        }
      }
    }
  }

  /**
   * A stream the backend completes is the role chunk, one chunk per element
   * in order, the closing `stop` chunk and `[DONE]`, with no error record.
   */
  lemma StreamCompleted(id: string, created: int, model: string, elements: seq<StreamElement>)
    ensures var events := StreamEvents(id, created, model, Streamed(elements, None));
      && |events| == |elements| + 3
      && events[0] == RoleChunk(id, created, model)
      && (forall k :: 0 <= k < |elements| ==> events[k + 1] == ElementChunk(id, created, model, elements[k]))
      && events[|elements| + 1] == FinalChunk(id, created, model)
      && events[|elements| + 2] == Done
      && forall k :: 0 <= k < |events| ==> !events[k].ErrorRecord?
  {
    var events := StreamEvents(id, created, model, Streamed(elements, None));
    var chunks := ElementChunks(id, created, model, elements);
    assert events == [RoleChunk(id, created, model)] + chunks + [FinalChunk(id, created, model), Done];
    forall k | 0 <= k < |elements| ensures events[k + 1] == ElementChunk(id, created, model, elements[k]) {
      assert events[k + 1] == chunks[k];
    }
  }

  /**
   * A backend that raises yields exactly one error record, right before
   * `[DONE]`; if the call itself raised, nothing else is sent.
   */
  lemma StreamFailed(id: string, created: int, model: string, backend: StreamBackend)
    requires backend.CallFailed? || backend.failure.Some?
    ensures var events := StreamEvents(id, created, model, backend);
      && |events| >= 2
      && events[|events| - 2] == ErrorRecord(if backend.CallFailed? then backend.error else backend.failure.value)
      && (forall k :: 0 <= k < |events| && k != |events| - 2 ==> !events[k].ErrorRecord?)
      && (backend.CallFailed? ==> |events| == 2)
      && (backend.Streamed? ==> events[0] == RoleChunk(id, created, model) && |events| == |backend.elements| + 3)
  {
  }

  lemma {:induction false} ElementChunksText(id: string, created: int, model: string, elements: seq<StreamElement>)
    ensures DeltaText(ElementChunks(id, created, model, elements)) == StreamedText(elements)
    decreases |elements|
  {
    if elements != [] {
      var init := elements[..|elements| - 1];
      var chunks := ElementChunks(id, created, model, elements);
      assert chunks[..|chunks| - 1] == ElementChunks(id, created, model, init);
      ElementChunksText(id, created, model, init);
    }
  }

  /** A client that concatenates the deltas of a stream gets exactly the text the backend streamed before any failure. */
  lemma StreamText(id: string, created: int, model: string, elements: seq<StreamElement>, failure: Option<string>)
    ensures DeltaText(StreamEvents(id, created, model, Streamed(elements, failure))) == StreamedText(elements)
  {
    var head := [RoleChunk(id, created, model)];
    var chunks := ElementChunks(id, created, model, elements);
    var tail := if failure.Some? then [ErrorRecord(failure.value), Done] else [FinalChunk(id, created, model), Done];
    assert StreamEvents(id, created, model, Streamed(elements, failure)) == head + chunks + tail;
    FrameCarriesNoText(id, created, model, if failure.Some? then failure.value else "");
    DeltaTextFramed(head, chunks, tail);
    ElementChunksText(id, created, model, elements);
  }

  /**
   * When the single response carries the text the stream carried, the
   * completion holds exactly what a client rebuilds from the stream.
   */
  lemma CompletionAgreesWithStream(id: string, created: int, model: string,
                                   elements: seq<StreamElement>, response: NativeResponse)
    requires response.text == StreamedText(elements)
    ensures CompletionOf(id, created, model, Responded(response))
      == CompletionReply(Completion(id, created, model,
                                    DeltaText(StreamEvents(id, created, model, Streamed(elements, None))),
                                    CompletionFinish(response.reason), ReportedUsage(response.usage)))
  {
    StreamText(id, created, model, elements, None);
  }

  /**
   * The chunk of the last backend element reports, when it reports one, the
   * finish reason the completion reports for the same native reason.
   */
  lemma LastChunkFinishAgrees(id: string, created: int, model: string, elements: seq<StreamElement>)
    requires elements != []
    ensures var chunk := StreamEvents(id, created, model, Streamed(elements, None))[|elements|];
      chunk.Chunk? && (chunk.finish.Some? ==> chunk.finish.value == CompletionFinish(elements[|elements| - 1].reason))
  {
    var events := StreamEvents(id, created, model, Streamed(elements, None));
    assert events[|elements|] == ElementChunk(id, created, model, elements[|elements| - 1]);
  }

  // ---------------------------------------------------------------------
  // Properties of the endpoint

  /** A rejected request gets status 400 whatever the backend would have done: the backend is never consulted. */
  lemma RejectionIsBackendFree(body: Option<Request>, fetch: Fetcher, b1: Backend, b2: Backend, id: string, created: int)
    requires Prepare(body, fetch).Rejected?
    ensures Handle(body, fetch, b1, id, created) == Handle(body, fetch, b2, id, created)
    ensures Handle(body, fetch, b1, id, created) == ErrorReply(400, Prepare(body, fetch).error)
  {
  }

  /** The two-element stream "A", "B": role chunk, "A", "B", closing `stop` chunk, `[DONE]`, one id and time throughout. */
  lemma TwoChunkExample(id: string, created: int, model: string)
    ensures StreamEvents(id, created, model, Streamed([StreamElement("A", None), StreamElement("B", None)], None))
      == [RoleChunk(id, created, model),
          Chunk(id, created, model, Delta(None, Some("A")), None),
          Chunk(id, created, model, Delta(None, Some("B")), None),
          FinalChunk(id, created, model),
          Done]
  {
  }
}
