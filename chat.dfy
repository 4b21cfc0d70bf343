/**
 * The values both proxy variants exchange: the backend's native turns and
 * parts, what the backend answers, and the OpenAI-shaped replies and
 * server-sent events the proxy sends back.
 *
 * The backend is not called: its answer (a single response, or the elements
 * of a stream and whether iteration raised) is an input of the model.
 */
module Chat {
  import opened Wrappers
  import Base64

  const DEFAULT_MODEL := "gemini-2.5-pro"

  /** A generation parameter as the request carries it; the proxy never computes with it. */
  datatype Number = Number(literal: string)

  /** The request fields other than `messages`; `None` means the key is absent. */
  datatype Params = Params(
    stream: bool,
    model: Option<string>,
    temperature: Option<Number>,
    topP: Option<Number>,
    maxOutputTokens: Option<Number>)

  /** One native content part: text, or inline binary data with its media type. */
  datatype Part = TextPart(text: string) | Blob(mime: string, data: seq<Base64.Byte>)

  /** One native turn: a role and its parts. */
  datatype Turn = Turn(role: string, parts: seq<Part>)

  /** The name of a finish reason other than the four the proxy tells apart. */
  type OtherReasonName = name: string
    | name != "FINISH_REASON_UNSPECIFIED" && name != "STOP" && name != "MAX_TOKENS" && name != "SAFETY"
    witness "OTHER"

  /** The backend's finish reason; `Unspecified` is the enumeration's zero value, which is falsy. */
  datatype NativeReason = Unspecified | Stop | MaxTokens | Safety | OtherReason(name: OtherReasonName)

  /** One element of a backend stream: its text and the first candidate's finish reason, if any. */
  datatype StreamElement = StreamElement(text: string, reason: Option<NativeReason>)

  /**
   * What a streaming backend call did: it raised at once, or it delivered
   * `elements` and then either ended or raised `failure`.
   */
  datatype StreamBackend =
    | CallFailed(error: string)
    | Streamed(elements: seq<StreamElement>, failure: Option<string>)

  datatype Usage = Usage(promptTokens: nat, completionTokens: nat, totalTokens: nat)

  /** A single response; `usage` is `None` when the backend leaves the usage record unpopulated. */
  datatype NativeResponse = NativeResponse(text: string, reason: Option<NativeReason>, usage: Option<Usage>)

  /** The counts reported for a usage record: an unpopulated one reads as all zeros. */
  function ReportedUsage(usage: Option<Usage>): (u: Usage)
    ensures usage.Some? ==> u == usage.value
    ensures usage.None? ==> u.promptTokens == 0 && u.completionTokens == 0 && u.totalTokens == 0
  {
    usage.GetOr(Usage(0, 0, 0))
  }

  /** What a single-shot backend call did: it raised, or it responded. */
  datatype SingleBackend = SingleFailed(error: string) | Responded(response: NativeResponse)

  /** The backend's answer to whichever call the proxy makes. */
  datatype Backend = Backend(single: SingleBackend, stream: StreamBackend)

  /** The OpenAI finish reasons the proxy emits. */
  datatype Finish = FinishStop | FinishLength | FinishContentFilter

  /** A chunk's `delta`: `None` fields are absent from the JSON object. */
  datatype Delta = Delta(role: Option<string>, content: Option<string>)

  /** One server-sent event: a completion chunk, an error record, or the `[DONE]` sentinel. */
  datatype Event =
    | Chunk(id: string, created: int, model: string, delta: Delta, finish: Option<Finish>)
    | ErrorRecord(error: string)
    | Done

  /** The first chunk of a stream: role `assistant`, empty content, no finish reason. */
  function RoleChunk(id: string, created: int, model: string): Event {
    Chunk(id, created, model, Delta(Some("assistant"), Some("")), None)
  }

  /** The closing chunk of a stream: empty delta, finish reason `stop`. */
  function FinalChunk(id: string, created: int, model: string): Event {
    Chunk(id, created, model, Delta(None, None), Some(FinishStop))
  }

  datatype Completion = Completion(
    id: string, created: int, model: string, content: string, finish: Finish, usage: Usage)

  datatype ErrorKind =
    | EmptyBody
    | NoMessages
    | NoValidContent
    | InvalidRole(role: string)
    | ServerError(detail: string)

  /** What the endpoint answers: an error with its HTTP status, a completion, or an event stream. */
  datatype Reply =
    | ErrorReply(status: nat, error: ErrorKind)
    | CompletionReply(completion: Completion)
    | StreamReply(events: seq<Event>)

  /** The content a client rebuilds from a stream: every chunk's delta content, in order. */
  function DeltaText(events: seq<Event>): string {
    if events == [] then ""
    else
      var last := events[|events| - 1];
      DeltaText(events[..|events| - 1])
        + if last.Chunk? && last.delta.content.Some? then last.delta.content.value else ""
  }

  /** The text the backend produced: every element's text, in order. */
  function StreamedText(elements: seq<StreamElement>): string {
    if elements == [] then ""
    else StreamedText(elements[..|elements| - 1]) + elements[|elements| - 1].text
  }

  lemma {:induction false} DeltaTextAppend(a: seq<Event>, b: seq<Event>)
    ensures DeltaText(a + b) == DeltaText(a) + DeltaText(b)
    decreases |b|
  {
    if b == [] {
      assert a + b == a;
    } else {
      var b' := b[..|b| - 1];
      assert (a + b)[..|a + b| - 1] == a + b';
      DeltaTextAppend(a, b');
    }
  }

  /** Events that carry no content around a run of events leave the run's content as it is. */
  lemma DeltaTextFramed(head: seq<Event>, middle: seq<Event>, tail: seq<Event>)
    requires DeltaText(head) == "" && DeltaText(tail) == ""
    ensures DeltaText(head + middle + tail) == DeltaText(middle)
  {
    DeltaTextAppend(head + middle, tail);
    DeltaTextAppend(head, middle);
  }

  /** The role chunk, the closing chunk, an error record and `[DONE]` carry no content. */
  lemma FrameCarriesNoText(id: string, created: int, model: string, error: string)
    ensures DeltaText([RoleChunk(id, created, model)]) == ""
    ensures DeltaText([FinalChunk(id, created, model), Done]) == ""
    ensures DeltaText([ErrorRecord(error), Done]) == ""
  {
    var head := [RoleChunk(id, created, model)];
    assert head[..0] == [];
    var closing, failing := [FinalChunk(id, created, model), Done], [ErrorRecord(error), Done];
    assert closing[..1][..0] == [] && closing[..1] == closing[..|closing| - 1];
    assert failing[..1][..0] == [] && failing[..1] == failing[..|failing| - 1];
  }

  /** Every chunk carries the response's id, creation time and model name. */
  predicate SharesIdentity(events: seq<Event>, id: string, created: int, model: string) {
    forall k :: 0 <= k < |events| && events[k].Chunk? ==>
      events[k].id == id && events[k].created == created && events[k].model == model
  }

  /** `[DONE]` is the last event and occurs nowhere else. */
  predicate DoneOnceAtEnd(events: seq<Event>) {
    |events| > 0 && events[|events| - 1] == Done
    && forall k :: 0 <= k < |events| - 1 ==> !events[k].Done?
  }
}
