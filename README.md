# Gemini chat proxy: the OpenAI-to-Vertex translator

This project models the two `chat_completions` endpoints of a small proxy.
Each endpoint takes an OpenAI-style chat request and translates it into a
call to a Gemini model on Vertex AI. It then re-encodes the model's answer
as an OpenAI chat completion: either one JSON completion or a server-sent
event stream of completion chunks ending in `[DONE]`.

There are two variants:

* **Multimodal proxy** (`app_vertex_gen_ai.py`, the second
  `chat_completions`), modelled by `GenAiRequest` and `GenAiResponse`.
  - It skips messages with falsy content.
  - It keeps the last non-empty system message as the instruction and
    renames `assistant` to `model`.
  - It turns a user's list content into text parts and image blobs. Blobs
    come from `data:` URLs, which are parsed (`DataUri`) and base64-decoded
    per section 4 of RFC 4648 (`Base64`), or from `http` URLs, which are
    fetched.
  - It rejects with status 400 a request that is empty, that has no turn
    left, or that has a turn whose role the backend does not accept.
  - It fills default generation parameters.
  - It maps the backend's finish reasons to OpenAI's.
  - Its stream has a fixed frame: a role chunk, one chunk per backend
    element, a closing `stop` chunk, then `[DONE]`. If the backend raises,
    the stream ends with an error record followed by `[DONE]`.
* **Text-only proxy** (`app_vertex.py`), modelled by `VertexProxy`.
  - It remaps roles, silently dropping any it does not know.
  - It passes generation parameters on only when the request has them.
  - Its stream forwards only backend chunks with non-empty text.
  - It always reports finish reason `stop`.

`Chat` holds the wire types both variants share: turns and parts, backend
results, stream events and replies. `Variants` relates the two proxies.

The model does not perform any I/O. The backend (Gemini) is an input value:
- for a stream, either a call that raises, or a sequence of elements (text
  and optional native finish reason) with an optional failure after them;
- for a single response, either a call that raises, or a response record.

The image fetch is an oracle function from URL to optional bytes and media
type. The response id and creation time are parameters. Events are
structured values rather than JSON text. Each endpoint is written twice:
- a method that runs the source's loops step by step (`BuildContents`,
  `CollectParts`, `TranslateMessages`, `BuildConfig`, `GenerateStream`,
  `ChatCompletions`);
- the specification function it is proved equal to (`LastSystem`, `Turns`,
  `ItemsParts`, `ConfigEntries`, `StreamEvents`, `Handle`).

The properties are proved about the functions.

OpenAI clients expect a stream in which a single chunk carries a finish
reason. This code behaves differently: it emits the mapped finish reason on
every backend element that has one, and then always sends a closing `stop`
chunk as well (`app_vertex_gen_ai.py:349-390`). The model follows the code.
`GenAiResponse.LastChunkFinishAgrees` shows that the last backend chunk's
reason agrees with the non-streamed reason.

## Model

| member | source | states |
|---|---|---|
| Base64.Decode | app_vertex_gen_ai.py:267 | A base64 text that decodes has a length that is a multiple of four (RFC 4648 section 4 groups). |
| Base64.DecodeEncode | app_vertex_gen_ai.py:267 | Decoding the canonical encoding of any byte string gives back exactly those bytes. |
| Base64.DecodeRejectsForeign | app_vertex_gen_ai.py:267 | A character outside the alphabet that is not padding makes the decode fail, so the image part is dropped. |
| Base64.TripleRoundTrip | app_vertex_gen_ai.py:267 | One full four-character group decodes to the three bytes it encodes. |
| Base64.EncodeOneRoundTrip | app_vertex_gen_ai.py:267 | A final group with two padding characters decodes to its single byte. |
| Base64.EncodeTwoRoundTrip | app_vertex_gen_ai.py:267 | A final group with one padding character decodes to its two bytes. |
| Base64.SextetChar | app_vertex_gen_ai.py:267 | Every 6-bit value has an alphabet character that decodes back to it and is neither padding nor a line break. |
| DataUri.ParseDataUri | app_vertex_gen_ai.py:263-266 | A match yields a non-empty media type of word characters, `/`, `-` and `.`, and a payload without a line break. The URL starts with `data:`, the media type, `;base64,` and the payload. |
| DataUri.ParseComposed | app_vertex_gen_ai.py:263-266 | Any `data:<mime>;base64,<payload>` URL, optionally followed by a line break and more text, is matched with exactly that media type and payload. The payload is cut at the line break because `.` does not match one. |
| DataUri.MarkerRequired | app_vertex_gen_ai.py:263-270 | A media type not followed by `;base64,` fails the match, and the part is dropped. |
| DataUri.MimeRun | app_vertex_gen_ai.py:263 | The greedy media-type run is the longest prefix of media-type characters. |
| DataUri.Line | app_vertex_gen_ai.py:263 | The payload group takes everything up to the first line break. |
| GenAiRequest.ResolveImageUrl | app_vertex_gen_ai.py:260-280 | A `data:` URL resolves iff it matches the pattern and its payload decodes, to a blob with the matched media type and the decoded bytes. An `http` URL resolves iff the fetch succeeds, to a blob with the fetched bytes and content type. Any other URL resolves to nothing. |
| GenAiRequest.ItemPart | app_vertex_gen_ai.py:247-280 | An item yields no part iff it is of an unknown type, a text item with no or empty text, or an image item with no or empty URL or whose URL does not resolve. A text part holds the item's text, and an image part is the resolved blob. |
| GenAiRequest.CollectParts | app_vertex_gen_ai.py:246-280 | The part loop produces the item-by-item parts in item order, leaving out items that yield none. |
| GenAiRequest.ItemsParts | app_vertex_gen_ai.py:246-280 | A user's list never yields more parts than it has items. |
| GenAiRequest.DroppedItemIsInvisible | app_vertex_gen_ai.py:247-258 | An item that yields no part (the cases `GenAiRequest.ItemPart` lists) leaves the parts of its siblings exactly as without it. |
| GenAiRequest.DataUriPayload | app_vertex_gen_ai.py:260-272 | An image item with URL `data:<mime>;base64,<payload>` and a valid media type yields a part iff the payload decodes. The part is a blob with exactly that media type and the decoded bytes. |
| GenAiRequest.DataUriImage | app_vertex_gen_ai.py:260-268 | An image item with the `data:` URL of any byte string's encoding yields a blob with that media type and exactly those bytes. |
| GenAiRequest.MessageTurn | app_vertex_gen_ai.py:221-283 | Null content gives no turn. String content gives a turn iff the role is not `system` and the text is non-empty: one text part, with `assistant` renamed `model`. List content gives a turn iff the role is `user` and some item yields a part: one `user` turn holding all the items' parts, in order. |
| GenAiRequest.NonUserListSkipped | app_vertex_gen_ai.py:240-244 | A message with list content whose role is not `user` is skipped: the conversation sends the same turns without it, so it never causes a rejection. |
| GenAiRequest.UserDataUriTurn | app_vertex_gen_ai.py:246-283 | A user message whose list holds the `data:` URL of any byte string's encoding sends a `user` turn holding a blob with that media type and exactly those bytes, between the parts of the items before and after it. |
| GenAiRequest.BuildContents | app_vertex_gen_ai.py:219-283 | The message loop ends with the last truthy system content as instruction and with the turns of the conversation in message order. |
| GenAiRequest.LastSystem | app_vertex_gen_ai.py:223-229 | The instruction is absent iff no system message has truthy content; otherwise it is the content of the last such message. |
| GenAiRequest.OnlyContributorsMatter | app_vertex_gen_ai.py:223-229 | System messages and messages with falsy content add no turn: removing them leaves the turns unchanged. |
| GenAiRequest.TextConversation | app_vertex_gen_ai.py:232-238 | Text messages from user and assistant each give one turn holding one text part equal to the content, in order, with `assistant` renamed `model`. |
| GenAiRequest.TurnOfMessage | app_vertex_gen_ai.py:235-283 | Every turn a message yields is among the turns sent. |
| GenAiRequest.TurnsWellFormed | app_vertex_gen_ai.py:235-283 | No turn sent is empty, and only a user turn holds several parts or a blob. |
| GenAiRequest.MessageTurnWellFormed | app_vertex_gen_ai.py:235-283 | The turn of a single message is well formed. |
| GenAiRequest.FirstBadRole | app_vertex_gen_ai.py:291-293 | No role is reported iff every turn is `user` or `model`. A reported role is not accepted, and it is the role of the first such turn. |
| GenAiRequest.ConfigFor | app_vertex_gen_ai.py:302-306 | Temperature, top_p and max_output_tokens are the request's values when present, and 1.0, 0.95 and 8192 otherwise. |
| GenAiRequest.Prepare | app_vertex_gen_ai.py:207-306 | A request is rejected iff the body is absent, there are no messages, no turn remains, or a turn has a role other than `user` or `model`. The errors are, in that order of checks, empty body, no messages, no valid content, and the first invalid role. A prepared call sends the conversation's turns (at least one, each `user` or `model` and well formed) and the last truthy system content as instruction. It also sends the named model or `gemini-2.5-pro`, the configuration of `ConfigFor`, and the request's stream flag. |
| GenAiRequest.OnlySystemRejected | app_vertex_gen_ai.py:215-216 | A request with no messages is rejected as such. A request with only system messages is rejected for having no valid content. |
| GenAiRequest.NoContributors | app_vertex_gen_ai.py:287-288 | A conversation of system messages has no contributing message. |
| GenAiRequest.ForeignRoleRejected | app_vertex_gen_ai.py:291-293 | A message with a role such as `tool` and non-empty text gets the request rejected for an invalid role. |
| GenAiResponse.StreamFinish | app_vertex_gen_ai.py:349-359 | In the stream, a present reason other than unspecified gives a finish reason. `length` comes exactly from MAX_TOKENS and `content_filter` exactly from SAFETY; any other present reason gives `stop`, and an absent one gives null. |
| GenAiResponse.CompletionFinish | app_vertex_gen_ai.py:414-420 | Outside the stream the finish reason agrees with the streamed mapping, and defaults to `stop`. |
| GenAiResponse.ElementChunks | app_vertex_gen_ai.py:344-374 | There is one chunk per backend element. |
| GenAiResponse.GenerateStream | app_vertex_gen_ai.py:316-397 | The generator yields exactly the event sequence of the stream specification. |
| GenAiResponse.StreamFraming | app_vertex_gen_ai.py:316-397 | Every stream, completed or failed, ends with `[DONE]` exactly once, last, and every chunk carries the same id, creation time and model. |
| GenAiResponse.StreamCompleted | app_vertex_gen_ai.py:328-393 | A completed stream is the role chunk, one chunk per element in order, the closing `stop` chunk and `[DONE]`, with no error record. |
| GenAiResponse.StreamFailed | app_vertex_gen_ai.py:394-397 | A raising backend yields exactly one error record, right before `[DONE]`. When the call itself raised, these two events are all that is sent. |
| GenAiResponse.StreamText | app_vertex_gen_ai.py:344-374 | The concatenated delta contents of a stream are exactly the backend's concatenated texts. |
| GenAiResponse.ElementChunksText | app_vertex_gen_ai.py:344-347 | The element chunks carry the backend's texts in order. |
| Chat.FrameCarriesNoText | app_vertex_gen_ai.py:329-397 | The role chunk, the closing chunk, an error record and `[DONE]` add no content. |
| Chat.ReportedUsage | app_vertex_gen_ai.py:437-441 | A usage record is reported as given, and an unpopulated one as zero counts. |
| GenAiResponse.CompletionOf | app_vertex_gen_ai.py:408-443 | The non-streamed reply is an error (500, with the backend's error) exactly when the call raises. Otherwise it is the completion with the response text, the finish reason of `CompletionFinish` and the reported usage. |
| GenAiResponse.CompletionAgreesWithStream | app_vertex_gen_ai.py:414-440 | For the same text, a completion carries exactly what the stream delivers, with the non-stream finish reason and the reported usage. |
| GenAiResponse.LastChunkFinishAgrees | app_vertex_gen_ai.py:349-359 | A finish reason on the last element's chunk equals the non-streamed finish reason for that reason. |
| GenAiResponse.Handle | app_vertex_gen_ai.py:204-446 | The endpoint answers 400 with the rejection's error exactly when preparation rejects the request. It streams iff the request is prepared and asks for a stream, and the stream is `StreamEvents` under the prepared model. A prepared non-streaming request gets `CompletionOf` under the prepared model. |
| GenAiResponse.ChatCompletions | app_vertex_gen_ai.py:204-446 | The endpoint's steps give the specified reply. The backend is called exactly when preparation succeeds, with the prepared arguments. |
| GenAiResponse.RejectionIsBackendFree | app_vertex_gen_ai.py:209-216 | A rejected request gets its 400 error whatever the backend would do. |
| GenAiResponse.TwoChunkExample | app_vertex_gen_ai.py:328-393 | Elements "A" and "B" give the role chunk, "A", "B", the closing chunk and `[DONE]`. |
| VertexProxy.MessageTurn | app_vertex.py:49-56 | Exactly user and assistant messages give a turn: one text part holding the content, with role `model` exactly for assistant. |
| VertexProxy.TurnsOfConversation | app_vertex.py:45-56 | The turns are exactly the user and assistant messages, in order, each as one text part (empty content included). |
| VertexProxy.StoredInstruction | app_vertex.py:49-50 | The stored instruction is absent iff there is no system message; otherwise it is the content of the last one, even when empty. |
| VertexProxy.PassedInstruction | app_vertex.py:60-61 | The instruction reaches the model iff the stored one is non-empty. |
| VertexProxy.TranslateMessages | app_vertex.py:42-56 | The message loop ends with the stored instruction and the conversation's turns. |
| VertexProxy.ConfigEntries | app_vertex.py:65-71 | The configuration has exactly the keys among `temperature`, `top_p` and `max_output_tokens` that the request sets, with the request's values. |
| VertexProxy.BuildConfig | app_vertex.py:65-73 | The configuration is absent exactly when the request sets none of the three parameters; otherwise it holds those entries. |
| VertexProxy.CallFor | app_vertex.py:39-73 | The model defaults to `gemini-2.5-pro`. The instruction passed is exactly the stored one when that is non-empty, and none otherwise. The configuration is absent iff no parameter is set, and otherwise holds exactly `ConfigEntries`. The call sends the conversation's turns and the stream flag. |
| VertexProxy.NonEmptyTexts | app_vertex.py:101-102 | The filter keeps only non-empty texts and never adds any. |
| VertexProxy.TextChunks | app_vertex.py:101-114 | There is exactly one chunk per non-empty backend text, in order, carrying that text. Each chunk has no finish reason and the stream's identity. |
| VertexProxy.GenerateStream | app_vertex.py:76-129 | The filtering generator yields exactly the event sequence of the stream specification. |
| VertexProxy.TextChunksText | app_vertex.py:101-114 | Dropping empty texts loses no content. |
| VertexProxy.StreamText | app_vertex.py:86-129 | The concatenated delta contents are exactly the backend's concatenated texts, however the stream ends. |
| VertexProxy.StreamCompleted | app_vertex.py:86-129 | A completed stream is the role chunk, non-empty text chunks and the closing `stop` chunk, then `[DONE]` exactly once, last. It has one identity and never an error record. |
| VertexProxy.StreamCutOnFailure | app_vertex.py:84-101 | When the backend raises, the stream stops. What was sent keeps its identity, but no `[DONE]` and no error record is sent. |
| VertexProxy.TwoChunkExample | app_vertex.py:86-129 | Elements "A" and "B" give the role chunk, "A", "B", the closing chunk and `[DONE]`. |
| VertexProxy.CompletionOf | app_vertex.py:137-158 | The reply is an error (500, with the backend's error) exactly when the call raises. Otherwise the finish reason is always `stop`, the content is the response text, and usage is reported as given, or as zero counts when absent. |
| VertexProxy.Handle | app_vertex.py:33-161 | Every error has status 500. The reply is an error iff the body is absent, or a non-streaming call raises. It is a stream iff the request asks for one, and then it is `StreamEvents` under the call's model. A non-streaming request gets `CompletionOf` under the call's model. |
| VertexProxy.ChatCompletions | app_vertex.py:33-161 | The endpoint's steps give the specified reply. The backend is called with the translated arguments whenever the body can be read. |
| Variants.PlainConversationsAgree | app_vertex_gen_ai.py:221-238 | On a conversation of user, assistant and system messages with non-empty text, both proxies send the same turns and the same instruction. |
| Variants.EmptyContentDiverges | app_vertex.py:47-56 | An empty user message becomes an empty text turn in the text-only proxy, but no turn in the multimodal one. |
| Variants.ConfigsAgree | app_vertex_gen_ai.py:302-306 | The multimodal configuration holds each parameter the text-only proxy passes on, and the defaults for the others. |
| Variants.CompletionsAgree | app_vertex_gen_ai.py:414-441 | When the finish reason maps to `stop`, both proxies answer a single response with the same completion, usage included. |
| Variants.StreamsCarrySameText | app_vertex_gen_ai.py:344-374 | Over the same backend stream, both proxies deliver the same text. |

## Left out

- HTTP plumbing is not modelled: Flask routing, JSON serialisation of events and replies, the event-stream media type, cache, connection and CORS headers (`app_vertex_gen_ai.py:400-405`), the health endpoint and the process launch. Status codes are kept as a field of the error reply.
- Vertex AI itself (`vertexai.init`, `GenerativeModel`, `generate_content`) is an input value, as is the HTTP image fetch (`urllib.request.urlopen`), which is an oracle giving bytes and a media type or nothing.
- The safety settings (`app_vertex_gen_ai.py:308-313`) are constant values handed to the backend and are not modelled.
- `uuid.uuid4()` and `time.time()` are replaced by the id and creation-time parameters; logging is left out.
- Temperature, top_p and max_output_tokens are opaque literals: they are passed through, never computed with.
- Message content other than null, a string or a list (numbers, objects), and list items that are not objects, are not modelled. Neither are an item's `image_url` that is truthy but not an object, or a `url` inside it that is truthy but not a string: the source then raises at `app_vertex_gen_ai.py:256` or `:260`, outside the inner `try`, and the whole request is answered with 500 (`app_vertex_gen_ai.py:445-446`); `ImageItem` holds an optional string, so the model cannot express these inputs. In the text-only proxy, content is a string; `str()` of other JSON values is not modelled.
- A missing role is modelled as the empty string. Both proxies treat it like any other unknown role. The text-only proxy drops the message. The multimodal proxy rejects the request when the content is a non-empty string, and skips the message when the content is a list (`app_vertex_gen_ai.py:242-244`).
- An empty JSON object as body is modelled as a request with no messages. The multimodal proxy then answers 400 for an empty message list instead of 400 for an empty body (same status, different message).
- Base64.Decode: implements strict RFC 4648 section 4 decoding. Python's `b64decode` in non-validating mode also discards characters outside the alphabet and accepts some malformed padding; such payloads are rejected here, so their image parts are dropped.
- DataUri.ParseDataUri: `\w` is taken as ASCII letters, digits and underscore; Python 3 also matches other Unicode word characters in media types.
- GenAiResponse.CompletionOf: an unpopulated usage record is read as zero counts. The source reads `usage_metadata` unguarded (`app_vertex_gen_ai.py:437-441`); the SDK exposes it as a message whose unset counts are zero.
- GenAiResponse.CompletionOf: the SDK raising while reading `.text` of a response without text is not distinguished from the backend call raising (both give a 500).
- VertexProxy.CompletionOf: as above, reading `.text` is taken not to raise; the call raising gives a 500.
- VertexProxy.StreamEvents: when the streaming call raises before the first event (`app_vertex.py:84`), the model gives an empty stream. The served program instead gets the web server's own error response, since the exception escapes the generator before anything is sent.
- The first half of `app_vertex_gen_ai.py` (lines 1-178), a copy of `app_vertex.py` with a malformed import, is not modelled separately; `app_vertex.py` covers it.
- The command-line and network clients (`test.ts`, `test_client.py`, `test_image_client.py`, `run.py`, `start.py`) are not part of this model.
