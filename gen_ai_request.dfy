/**
 * Request translation of the multimodal proxy (`app_vertex_gen_ai.py`):
 * OpenAI chat messages become native turns, a system instruction and a
 * generation configuration, or the request is rejected with status 400.
 *
 * Messages with falsy content are skipped; the last system message with
 * content is the instruction; `assistant` becomes `model`; non-list
 * content is one text part; a user's list content is resolved item by
 * item, and a turn without parts is dropped.
 */
module GenAiRequest {
  import opened Wrappers
  import Base64
  import opened DataUri
  import opened Chat

  /** One element of a list-valued `content`; `None` stands for an absent or falsy field. */
  datatype Item =
    | TextItem(text: Option<string>)   // {"type": "text", "text": ...}
    | ImageItem(url: Option<string>)   // {"type": "image_url", "image_url": {"url": ...}}
    | OtherItem                        // any other "type"

  /** A message's `content`: absent or null, a string, or a list of items. */
  datatype Content = Null | Str(text: string) | List(items: seq<Item>)

  /** A chat message; an absent role is the empty string, which no check accepts. */
  datatype Message = Message(role: string, content: Content)

  datatype Request = Request(messages: seq<Message>, params: Params)

  /** What fetching an `http` image URL yields: its bytes and the response's content type. */
  datatype Fetched = Fetched(data: seq<Base64.Byte>, mime: string)

  /** The HTTP image fetch, as an oracle; `None` is a failed fetch. */
  type Fetcher = string -> Option<Fetched>

  const DEFAULT_TEMPERATURE := Number("1.0")
  const DEFAULT_TOP_P := Number("0.95")
  const DEFAULT_MAX_OUTPUT_TOKENS := Number("8192")

  /** Python truthiness of a content value: null, `""` and `[]` are falsy. */
  predicate Truthy(c: Content) {
    match c
    case Null => false
    case Str(s) => s != ""
    case List(items) => items != []
  }

  /**
   * The part an image URL resolves to: a `data:` URL is parsed and its payload
   * base64-decoded, an `http` URL is fetched; any failure drops the part.
   */
  function ResolveImageUrl(url: string, fetch: Fetcher): (r: Option<Part>)
    ensures r.Some? ==> r.value.Blob?
    ensures r.Some? ==> StartsWith(url, SCHEME) || StartsWith(url, "http")
    ensures StartsWith(url, SCHEME) ==>
      (r.Some? <==> ParseDataUri(url).Some? && Base64.Decode(ParseDataUri(url).value.1).Some?)
    ensures StartsWith(url, SCHEME) && r.Some? ==>
      r.value == Blob(ParseDataUri(url).value.0, Base64.Decode(ParseDataUri(url).value.1).value)
    ensures !StartsWith(url, SCHEME) && StartsWith(url, "http") ==>
      (r.Some? <==> fetch(url).Some?)
      && (r.Some? ==> r.value == Blob(fetch(url).value.mime, fetch(url).value.data))
  {
    if StartsWith(url, SCHEME) then
      match ParseDataUri(url)
      case None => None
      case Some((mime, payload)) =>
        match Base64.Decode(payload)
        case None => None
        case Some(data) => Some(Blob(mime, data))
    else if StartsWith(url, "http") then
      match fetch(url)
      case None => None
      case Some(f) => Some(Blob(f.mime, f.data))
    else None
  }

  /** The part one list item contributes, if any. */
  function ItemPart(item: Item, fetch: Fetcher): (r: Option<Part>)
    ensures r.None? <==>
      || item.OtherItem?
      || (item.TextItem? && (item.text.None? || item.text.value == ""))
      || (item.ImageItem? && (item.url.None? || item.url.value == "" || ResolveImageUrl(item.url.value, fetch).None?))
    ensures item.TextItem? && r.Some? ==> r.value == TextPart(item.text.value)
    ensures item.ImageItem? && r.Some? ==> r == ResolveImageUrl(item.url.value, fetch)
  {
    match item
    case TextItem(t) => if t.Some? && t.value != "" then Some(TextPart(t.value)) else None
    case ImageItem(u) => if u.Some? && u.value != "" then ResolveImageUrl(u.value, fetch) else None
    case OtherItem => None
  }

  /** The parts of a user's list content: each item's part, in order, failures left out. */
  function ItemsParts(items: seq<Item>, fetch: Fetcher): (parts: seq<Part>)
    ensures |parts| <= |items|
  {
    if items == [] then []
    else ItemsParts(items[..|items| - 1], fetch) + ToSeq(ItemPart(items[|items| - 1], fetch))
  }

  /** The loop over a user's list content, appending one part per resolvable item. */
  method CollectParts(items: seq<Item>, fetch: Fetcher) returns (parts: seq<Part>)
    ensures parts == ItemsParts(items, fetch)
  {
    parts := [];
    var i := 0;
    while i < |items|
      invariant 0 <= i <= |items|
      invariant parts == ItemsParts(items[..i], fetch)
    {
      var item := items[i];
      assert items[..i + 1][..i] == items[..i];
      if item.TextItem? {
        if item.text.Some? && item.text.value != "" {
          parts := parts + [TextPart(item.text.value)];
        }
      } else if item.ImageItem? {
        if item.url.Some? && item.url.value != "" {
          var part := ResolveImageUrl(item.url.value, fetch);
          if part.Some? {
            parts := parts + [part.value];
          }
        }
      }
      i := i + 1;
    }
    assert items[..i] == items;
  }

  function NativeRole(role: string): string {
    if role == "assistant" then "model" else role
  }

  /**
   * The turn one message contributes: none for falsy content, system messages
   * and non-user lists; a string gives one text turn, and a user's list one
   * `user` turn holding all its items' parts, in order, when there are any.
   */
  function MessageTurn(m: Message, fetch: Fetcher): (r: Option<Turn>)
    ensures m.content.Null? ==> r.None?
    ensures m.content.Str? ==>
      (r.Some? <==> m.role != "system" && m.content.text != "")
      && (r.Some? ==> r.value == Turn(NativeRole(m.role), [TextPart(m.content.text)]))
    ensures m.content.List? ==>
      (r.Some? <==> m.role == "user" && ItemsParts(m.content.items, fetch) != [])
      && (r.Some? ==> r.value == Turn("user", ItemsParts(m.content.items, fetch)))
  {
    if !Truthy(m.content) || m.role == "system" then None
    else
      match m.content
      case Str(s) => Some(Turn(NativeRole(m.role), [TextPart(s)]))
      case List(items) =>
        if NativeRole(m.role) != "user" then None
        else
          var parts := ItemsParts(items, fetch);
          if parts == [] then None else Some(Turn("user", parts))
      case Null => None
  }

  /** The turns of a conversation: each message's turn, in message order. */
  function Turns(messages: seq<Message>, fetch: Fetcher): seq<Turn> {
    if messages == [] then []
    else Turns(messages[..|messages| - 1], fetch) + ToSeq(MessageTurn(messages[|messages| - 1], fetch))
  }

  predicate IsInstruction(m: Message) {
    m.role == "system" && Truthy(m.content)
  }

  /** The system instruction: the content of the last system message whose content is truthy. */
  function LastSystem(messages: seq<Message>): (r: Option<Content>)
    ensures r.None? <==> forall k :: 0 <= k < |messages| ==> !IsInstruction(messages[k])
    ensures r.Some? ==> exists k :: (0 <= k < |messages| && IsInstruction(messages[k])
      && messages[k].content == r.value
      && forall j :: k < j < |messages| ==> !IsInstruction(messages[j]))
  {
    if messages == [] then None
    else
      var last := messages[|messages| - 1];
      if IsInstruction(last) then Some(last.content)
      else LastSystem(messages[..|messages| - 1])
  }

  /** The message loop: keeps the latest system content and appends each message's turn. */
  method BuildContents(messages: seq<Message>, fetch: Fetcher) returns (system: Option<Content>, contents: seq<Turn>)
    ensures system == LastSystem(messages)
    ensures contents == Turns(messages, fetch)
  {
    system, contents := None, [];
    var i := 0;
    while i < |messages|
      invariant 0 <= i <= |messages|
      invariant system == LastSystem(messages[..i])
      invariant contents == Turns(messages[..i], fetch)
    {
      var m := messages[i];
      assert messages[..i + 1][..i] == messages[..i];
      if Truthy(m.content) {
        if m.role == "system" {
          system := Some(m.content);
        } else {
          var role := if m.role == "assistant" then "model" else m.role;
          if m.content.Str? {
            contents := contents + [Turn(role, [TextPart(m.content.text)])];
          } else if m.content.List? && role == "user" {
            var parts := CollectParts(m.content.items, fetch);
            if parts != [] {
              contents := contents + [Turn(role, parts)];
            }
          }
        }
      }
      i := i + 1;
    }
    assert messages[..i] == messages;
  }

  predicate NativeRoleOk(role: string) {
    role == "user" || role == "model"
  }

  /** The role of the first turn whose role the backend does not accept, if any. */
  function FirstBadRole(turns: seq<Turn>): (r: Option<string>)
    ensures r.None? <==> forall k :: 0 <= k < |turns| ==> NativeRoleOk(turns[k].role)
    ensures r.Some? ==> !NativeRoleOk(r.value)
    ensures r.Some? ==> exists k :: (0 <= k < |turns| && turns[k].role == r.value
      && forall j :: 0 <= j < k ==> NativeRoleOk(turns[j].role))
  {
    if turns == [] then None
    else if !NativeRoleOk(turns[0].role) then Some(turns[0].role)
    else
      var r := FirstBadRole(turns[1..]);
      assert r.Some? ==> exists k :: (1 <= k < |turns| && turns[k].role == r.value
        && forall j :: 0 <= j < k ==> NativeRoleOk(turns[j].role)) by {
        if r.Some? {
          var k :| 0 <= k < |turns[1..]| && turns[1..][k].role == r.value
            && forall j :: 0 <= j < k ==> NativeRoleOk(turns[1..][j].role);
          assert turns[k + 1].role == r.value;
          forall j | 0 <= j < k + 1 ensures NativeRoleOk(turns[j].role) {
            if j > 0 { assert turns[j] == turns[1..][j - 1]; }
          }
        }
      }
      r
  }

  /** The generation configuration: the request's values, each defaulted when absent. */
  datatype GenerationConfig = GenerationConfig(temperature: Number, topP: Number, maxOutputTokens: Number)

  /** Each parameter the request sets is taken as given; the others get their defaults (1.0, 0.95, 8192). */
  function ConfigFor(p: Params): (c: GenerationConfig)
    ensures c.temperature == if p.temperature.Some? then p.temperature.value else DEFAULT_TEMPERATURE
    ensures c.topP == if p.topP.Some? then p.topP.value else DEFAULT_TOP_P
    ensures c.maxOutputTokens == if p.maxOutputTokens.Some? then p.maxOutputTokens.value else DEFAULT_MAX_OUTPUT_TOKENS
  {
    GenerationConfig(
      p.temperature.GetOr(DEFAULT_TEMPERATURE),
      p.topP.GetOr(DEFAULT_TOP_P),
      p.maxOutputTokens.GetOr(DEFAULT_MAX_OUTPUT_TOKENS))
  }

  /** A turn as the translator builds it: some parts, and several or binary ones only for a user. */
  predicate WellFormed(t: Turn) {
    t.parts != [] && (t.role != "user" ==> |t.parts| == 1 && t.parts[0].TextPart?)
  }

  /** Everything the backend call is made with. */
  datatype Prepared = Prepared(
    model: string,
    instruction: Option<Content>,
    turns: seq<Turn>,
    config: GenerationConfig,
    stream: bool)

  datatype Preparation = Ready(prepared: Prepared) | Rejected(error: ErrorKind)

  /**
   * The checks and translation before the backend is called: an absent body,
   * no messages, no turn left, or a turn with a role other than `user` and
   * `model` is rejected; otherwise the call's arguments are ready.
   * The instruction is passed on whenever present, since it is always truthy.
   */
  function Prepare(body: Option<Request>, fetch: Fetcher): (r: Preparation)
    ensures r.Rejected? <==> (body.None? || body.value.messages == []
      || Turns(body.value.messages, fetch) == [] || FirstBadRole(Turns(body.value.messages, fetch)).Some?)
    ensures body.None? ==> r == Rejected(EmptyBody)
    ensures body.Some? && body.value.messages == [] ==> r == Rejected(NoMessages)
    ensures body.Some? && body.value.messages != [] && Turns(body.value.messages, fetch) == []
      ==> r == Rejected(NoValidContent)
    ensures body.Some? && Turns(body.value.messages, fetch) != [] && FirstBadRole(Turns(body.value.messages, fetch)).Some?
      ==> r == Rejected(InvalidRole(FirstBadRole(Turns(body.value.messages, fetch)).value))
    ensures r.Ready? ==> body.Some? && r.prepared.turns == Turns(body.value.messages, fetch)
    ensures r.Ready? ==> (r.prepared.model == body.value.params.model.GetOr(DEFAULT_MODEL)
      && r.prepared.config == ConfigFor(body.value.params) && r.prepared.stream == body.value.params.stream)
    ensures r.Ready? ==> r.prepared.turns != []
    ensures r.Ready? ==> forall t :: t in r.prepared.turns ==> NativeRoleOk(t.role) && WellFormed(t)
    ensures r.Ready? ==> r.prepared.instruction == LastSystem(body.value.messages)
  {
    if body.None? then Rejected(EmptyBody)
    else if body.value.messages == [] then Rejected(NoMessages)
    else
      var turns := Turns(body.value.messages, fetch);
      if turns == [] then Rejected(NoValidContent)
      else match FirstBadRole(turns)
        case Some(role) => Rejected(InvalidRole(role))
        case None =>
          TurnsWellFormed(body.value.messages, fetch);
          Ready(Prepared(
            body.value.params.model.GetOr(DEFAULT_MODEL),
            LastSystem(body.value.messages),
            turns,
            ConfigFor(body.value.params),
            body.value.params.stream))
  }

  // ---------------------------------------------------------------------
  // Properties of the translation

  lemma {:induction false} ItemsPartsAppend(a: seq<Item>, b: seq<Item>, fetch: Fetcher)
    ensures ItemsParts(a + b, fetch) == ItemsParts(a, fetch) + ItemsParts(b, fetch)
    decreases |b|
  {
    if b == [] {
      assert a + b == a;
    } else {
      var b' := b[..|b| - 1];
      assert (a + b)[..|a + b| - 1] == a + b';
      ItemsPartsAppend(a, b', fetch);
    }
  }

  /** An item that yields no part (bad URL, failed fetch or decode, empty text) leaves its siblings as they were. */
  lemma DroppedItemIsInvisible(before: seq<Item>, item: Item, after: seq<Item>, fetch: Fetcher)
    requires ItemPart(item, fetch) == None
    ensures ItemsParts(before + [item] + after, fetch) == ItemsParts(before + after, fetch)
  {
    ItemsPartsOne(item, fetch);
    ItemsPartsAppend(before + [item], after, fetch);
    ItemsPartsAppend(before, [item], fetch);
    ItemsPartsAppend(before, after, fetch);
  }

  lemma ItemsPartsOne(item: Item, fetch: Fetcher)
    ensures ItemsParts([item], fetch) == ToSeq(ItemPart(item, fetch))
  {
    assert [item][..0] == [];
  }

  /**
   * An image item with a `data:` URL for a valid media type yields a blob of
   * that type holding the decoded payload, or nothing when the payload does
   * not decode.
   */
  lemma DataUriPayload(mime: string, payload: string, fetch: Fetcher)
    requires ValidMime(mime) && '\n' !in payload
    ensures var part := ItemPart(ImageItem(Some(SCHEME + mime + MARKER + payload)), fetch);
      && (part.Some? <==> Base64.Decode(payload).Some?)
      && (part.Some? ==> part.value == Blob(mime, Base64.Decode(payload).value))
  {
    var url := SCHEME + mime + MARKER + payload;
    assert url == SCHEME + mime + MARKER + payload + [];
    ParseComposed(mime, payload, []);
    assert StartsWith(url, SCHEME) by {
      assert url == SCHEME + (mime + MARKER + payload);
    }
  }

  /** A `data:` image URL with a valid media type yields a blob of that type holding the decoded payload. */
  lemma DataUriImage(mime: string, data: seq<Base64.Byte>, fetch: Fetcher)
    requires ValidMime(mime)
    ensures ItemPart(ImageItem(Some(SCHEME + mime + MARKER + Base64.Encode(data))), fetch) == Some(Blob(mime, data))
  {
    DataUriPayload(mime, Base64.Encode(data), fetch);
    Base64.DecodeEncode(data);
  }

  lemma {:induction false} TurnsAppend(a: seq<Message>, b: seq<Message>, fetch: Fetcher)
    ensures Turns(a + b, fetch) == Turns(a, fetch) + Turns(b, fetch)
    decreases |b|
  {
    if b == [] {
      assert a + b == a;
    } else {
      var b' := b[..|b| - 1];
      assert (a + b)[..|a + b| - 1] == a + b';
      TurnsAppend(a, b', fetch);
    }
  }

  lemma MessageTurnWellFormed(m: Message, fetch: Fetcher)
    ensures MessageTurn(m, fetch).Some? ==> WellFormed(MessageTurn(m, fetch).value)
  {
  }

  /** No turn is empty, and only a user turn holds several parts or a binary one. */
  lemma {:induction false} TurnsWellFormed(messages: seq<Message>, fetch: Fetcher)
    ensures forall t :: t in Turns(messages, fetch) ==> WellFormed(t)
    decreases |messages|
  {
    if messages != [] {
      TurnsWellFormed(messages[..|messages| - 1], fetch);
      MessageTurnWellFormed(messages[|messages| - 1], fetch);
    }
  }

  predicate Contributes(m: Message) {
    m.role != "system" && Truthy(m.content)
  }

  function Contributing(messages: seq<Message>): (r: seq<Message>)
    ensures forall k :: 0 <= k < |r| ==> Contributes(r[k])
  {
    if messages == [] then []
    else
      var last := messages[|messages| - 1];
      Contributing(messages[..|messages| - 1]) + if Contributes(last) then [last] else []
  }

  /** System messages and messages with falsy content contribute no turn: dropping them changes nothing. */
  lemma {:induction false} OnlyContributorsMatter(messages: seq<Message>, fetch: Fetcher)
    ensures Turns(messages, fetch) == Turns(Contributing(messages), fetch)
    decreases |messages|
  {
    if messages != [] {
      var init, last := messages[..|messages| - 1], messages[|messages| - 1];
      OnlyContributorsMatter(init, fetch);
      if Contributes(last) {
        TurnsAppend(Contributing(init), [last], fetch);
        assert [last][..0] == [];
      } else {
        assert Contributing(init) + [] == Contributing(init);
      }
    }
  }

  /** A conversation of text messages gives one single-part turn per message, in order, with `assistant` renamed. */
  lemma {:induction false} TextConversation(messages: seq<Message>, fetch: Fetcher)
    requires forall k :: 0 <= k < |messages| ==>
      messages[k].role != "system" && messages[k].content.Str? && messages[k].content.text != ""
    ensures |Turns(messages, fetch)| == |messages|
    ensures forall k :: 0 <= k < |messages| ==>
      Turns(messages, fetch)[k] == Turn(NativeRole(messages[k].role), [TextPart(messages[k].content.text)])
    decreases |messages|
  {
    if messages != [] {
      TextConversation(messages[..|messages| - 1], fetch);
    }
  }

  lemma {:induction false} TurnOfMessage(messages: seq<Message>, k: nat, fetch: Fetcher)
    requires k < |messages| && MessageTurn(messages[k], fetch).Some?
    ensures MessageTurn(messages[k], fetch).value in Turns(messages, fetch)
    decreases |messages|
  {
    if k < |messages| - 1 {
      TurnOfMessage(messages[..|messages| - 1], k, fetch);
    }
  }

  /** A message that is not the user's and has list content is skipped: the other messages give the same turns without it. */
  lemma NonUserListSkipped(before: seq<Message>, m: Message, after: seq<Message>, fetch: Fetcher)
    requires m.content.List? && m.role != "user"
    ensures Turns(before + [m] + after, fetch) == Turns(before + after, fetch)
  {
    assert MessageTurn(m, fetch).None?;
    assert [m][..0] == [];
    TurnsAppend(before + [m], after, fetch);
    TurnsAppend(before, [m], fetch);
    TurnsAppend(before, after, fetch);
  }

  /**
   * A user message whose list holds the `data:` URL of a byte string's
   * encoding sends a `user` turn holding that blob, between its siblings' parts.
   */
  lemma UserDataUriTurn(messages: seq<Message>, k: nat, before: seq<Item>, after: seq<Item>,
                        mime: string, data: seq<Base64.Byte>, fetch: Fetcher)
    requires k < |messages| && messages[k].role == "user" && ValidMime(mime)
    requires messages[k].content
      == List(before + [ImageItem(Some(SCHEME + mime + MARKER + Base64.Encode(data)))] + after)
    ensures var turn := Turn("user", ItemsParts(before, fetch) + [Blob(mime, data)] + ItemsParts(after, fetch));
      && MessageTurn(messages[k], fetch) == Some(turn)
      && turn in Turns(messages, fetch)
  {
    var item := ImageItem(Some(SCHEME + mime + MARKER + Base64.Encode(data)));
    DataUriImage(mime, data, fetch);
    ItemsPartsOne(item, fetch);
    ItemsPartsAppend(before + [item], after, fetch);
    ItemsPartsAppend(before, [item], fetch);
    TurnOfMessage(messages, k, fetch);
  }

  /** A request of system messages only is rejected before the backend is called. */
  lemma {:induction false} OnlySystemRejected(request: Request, fetch: Fetcher)
    requires forall k :: 0 <= k < |request.messages| ==> request.messages[k].role == "system"
    ensures Prepare(Some(request), fetch) == Rejected(if request.messages == [] then NoMessages else NoValidContent)
  {
    OnlyContributorsMatter(request.messages, fetch);
    NoContributors(request.messages);
  }

  lemma {:induction false} NoContributors(messages: seq<Message>)
    requires forall k :: 0 <= k < |messages| ==> messages[k].role == "system"
    ensures Contributing(messages) == []
    decreases |messages|
  {
    if messages != [] {
      NoContributors(messages[..|messages| - 1]);
    }
  }

  /**
   * A message with string content and a role the backend does not know
   * (a `tool` message, say) makes the whole request fail with an invalid role.
   */
  lemma ForeignRoleRejected(request: Request, k: nat, fetch: Fetcher)
    requires k < |request.messages|
    requires request.messages[k].role !in {"system", "user", "assistant", "model"}
    requires request.messages[k].content.Str? && request.messages[k].content.text != ""
    ensures Prepare(Some(request), fetch).Rejected?
    ensures Prepare(Some(request), fetch).error.InvalidRole?
  {
    var m := request.messages[k];
    TurnOfMessage(request.messages, k, fetch);
    var turns := Turns(request.messages, fetch);
    var i :| 0 <= i < |turns| && turns[i] == MessageTurn(m, fetch).value;
    assert !NativeRoleOk(turns[i].role);
  }
}
