# Trovo bot adapter: frame decoding and activity dispatch

This project models the message path of a Botkit adapter for the Trovo live
chat. The adapter drives a headless browser on a Trovo chat page. It listens
to the page's WebSocket traffic through the Chrome DevTools protocol, and
types its replies into the chat input.

The model covers these rules:

- The listener calls WebSocket opcode 1 "text" and everything else "binary".
- The decoder (`_handle`) reads fixed-offset big-endian fields from the
  decoded binary payload. These are the u16 opcode at byte 8, `totalLength`
  at byte 0 and `dataLength` at byte 18.
- When the opcode is 3 (chat data), the decoder cuts the chat blob out and
  passes it on.
- The filter (`_messageToActivity`) drops missing chats, history replays and
  the bot's own messages.
- `processActivity` overwrites the activity's `recipient.id` with the fixed
  id `"999999999"` and its `serviceURL` with the chat channel's URL. It then
  hands the activity to the middleware.
- `sendActivities` fills each outbound activity's text into the chat input
  and presses Enter, one activity after another.
- The page's route rule aborts image and font requests, and any request
  whose URL contains `google`.

Modules:

- `Bytes`: byte values, `readUInt16BE`/`readUInt32BE` as `BE16`/`BE32`, and
  their encoders.
- `Frames`: payload classification and the decoder `Handle`. Its result is
  `TextIgnored | NonDataFrame | Blob(data) | Malformed(fault)`. The module
  also holds `MakeFrame`, a frame *encoder* used as the decoder's inverse.
- `Messages`: the decoded `Chat` record and the filter `FilterChat`.
- `Route`: `IndexOf` (as in `String.prototype.indexOf`) and the route
  decision.
- `Transport`: the browser page as a class with an append-only action log.
  Also the expected rendering of a list of texts and its inverse.
- `Adapter`: the mutable `Activity` object, the stamping specification
  `Stamped`, and the per-frame dispatch specification `Dispatched`. Also the
  `TrovoAdapter` class, whose methods follow the JavaScript methods one by
  one. Its log `turns` records every activity handed to the middleware, and
  its object invariant says that each one is stamped and accepted. The frame
  path keeps that invariant. `ProcessActivity` called directly on a chat the
  filter rejects breaks it, and its contract says so.

External collaborators become parameters:

- The protobuf reader (`TrovoMessage.read(new pbf(blob)).chat`) is the
  adapter's constant function `decode` into `Option<Chat>`. Its `None`
  covers both a null chat and a decode failure.
- The field `serviceURL` is the property of that name that
  `processActivity` writes on the chat object. It is not botbuilder's
  `serviceUrl`, which the adapter never touches.
- The configured bot name (`process.env.BOTNAME`) and the URL (`this.url.href`)
  are constants fixed at construction.

Two points where the code does less than the frame layout suggests; the
model follows the code:

- The layout suggests the blob is the range
  `[totalLength - dataLength, totalLength)`, and that a buffer shorter than
  `totalLength` is malformed. The code takes `buffer.slice(totalLength -
  dataLength)`, so the blob runs to the end of the buffer, and it never
  compares the buffer length with `totalLength`. In the model the blob is
  the trailing `dataLength` bytes exactly when the buffer is
  `totalLength` long (`Frames.BlobIsTrailingData` and
  `Frames.TrailingDataOnlyWhenExact`).
- Decoding is meant to be side-effect free. In the code, the buffer reads
  throw a range error on short buffers. The model returns
  `Malformed(OpcodeOutOfRange)` or `Malformed(DataLengthOutOfRange)` for
  these.

## Model

| member | source | states |
|---|---|---|
| Bytes.BE16 | lib/trovo_adapter.js:150 | `readUInt16BE`: the value of two bytes, most significant first, is an unsigned 16-bit number (below 2^16); `EncodeBE16` shows it determines both bytes |
| Bytes.BE32 | lib/trovo_adapter.js:155-156 | `readUInt32BE`: the value of four bytes, most significant first, is an unsigned 32-bit number (below 2^32); `EncodeBE32` shows it determines all four bytes |
| Bytes.EncodeU16 | lib/trovo_adapter.js:150 | the two bytes written for a 16-bit value read back as that value with `BE16` |
| Bytes.EncodeU32 | lib/trovo_adapter.js:155-156 | the four bytes written for a 32-bit value read back as that value with `BE32` |
| Bytes.EncodeBE16 | lib/trovo_adapter.js:150 | re-encoding a 16-bit field read gives exactly the two bytes read, so `BE16` loses no information |
| Bytes.EncodeBE32 | lib/trovo_adapter.js:155-156 | re-encoding a 32-bit field read gives exactly the four bytes read |
| Frames.Classify | lib/trovo_adapter.js:139 | a frame is text exactly when its WebSocket opcode is 1; every other opcode is binary |
| Frames.TotalLength | lib/trovo_adapter.js:155 | the `totalLength` getter reads bytes 0-3 as a big-endian unsigned 32-bit value: it is below 2^32 and re-encodes to exactly those four bytes |
| Frames.FrameOpcode | lib/trovo_adapter.js:150 | the frame opcode is bytes 8-9 read as a big-endian unsigned 16-bit value: it is below 2^16 and re-encodes to exactly those two bytes |
| Frames.DataLength | lib/trovo_adapter.js:156 | the `dataLength` getter reads bytes 18-21 as a big-endian unsigned 32-bit value: it is below 2^32 and re-encodes to exactly those four bytes |
| Frames.DataStart | lib/trovo_adapter.js:158 | the slice start `totalLength - dataLength` never exceeds `totalLength`, and lies strictly between -2^32 and 2^32 because both fields are unsigned 32-bit values, so it can be negative |
| Frames.Handle | lib/trovo_adapter.js:145-162 | text is reported as ignored exactly for text frames; a blob is always a suffix of the input buffer |
| Frames.TextNeverDecoded | lib/trovo_adapter.js:139-148 | a frame with WebSocket opcode 1 is ignored whatever its bytes |
| Frames.NonDataFrameIff | lib/trovo_adapter.js:150-153 | a binary frame is ignored as non-data if and only if it has at least 10 bytes and its u16 at offset 8 is not 3 |
| Frames.NonDataFrameReadsOnlyOpcode | lib/trovo_adapter.js:150-153 | ignoring a non-data frame depends on bytes 8 and 9 only: any buffer that shares them is ignored too |
| Frames.BlobIff | lib/trovo_adapter.js:154-158 | a binary frame yields blob `b` if and only if it has a 22-byte header, opcode 3, a data start `totalLength - dataLength` within the buffer, and `b` is the buffer from that start to the end |
| Frames.MalformedIff | lib/trovo_adapter.js:150-158 | decoding fails if and only if the buffer is under 10 bytes, or it is a chat frame under 22 bytes or with its data start outside the buffer |
| Frames.BlobIsTrailingData | lib/trovo_adapter.js:155-158 | when the buffer is exactly `totalLength` bytes and `dataLength <= totalLength`, the blob is the trailing `dataLength` bytes |
| Frames.TrailingDataOnlyWhenExact | lib/trovo_adapter.js:155-158 | conversely, a blob of exactly `dataLength` bytes means the buffer is exactly `totalLength` long |
| Frames.FortyByteFrame | lib/trovo_adapter.js:155-158 | a 40-byte chat frame with `totalLength` 40 and `dataLength` 10 yields bytes 30 to 40 |
| Frames.NodeSlice | lib/trovo_adapter.js:158 | Node's `slice(start)` is a suffix of the buffer: `length - start` bytes for an in-range start, the last `-start` bytes for a small negative start, all of it for a large negative start, none past the end |
| Frames.HandleAgreesWithNodeSlice | lib/trovo_adapter.js:157-158 | on a chat frame every blob the decoder yields is the slice the source takes; it rejects a chat frame only for a data start outside the buffer, where Node would clamp (to nothing past the end) |
| Frames.MakeFrame | lib/trovo_adapter.js:154-158 | a frame laid out from a header and a blob is exactly header plus blob long |
| Frames.MakeFrameFields | lib/trovo_adapter.js:150-158 | the fields of a laid-out frame read back as written: `totalLength` is its length, the opcode is the one given, `dataLength` is the blob length and the blob follows the header |
| Frames.DecodeMadeChatFrame | lib/trovo_adapter.js:149-161 | decoding a laid-out opcode-3 frame gives back its blob exactly |
| Frames.DecodeMadeOtherFrame | lib/trovo_adapter.js:150-153 | a laid-out frame with any other opcode is ignored |
| Messages.FilterChat | lib/trovo_adapter.js:164-171 | a decoded chat is passed on, unchanged, if and only if it is present, not a history replay and not by the bot's display name |
| Messages.SelfMessageDropped | lib/trovo_adapter.js:166-168 | a chat under the bot's own display name is dropped |
| Messages.HistoryDropped | lib/trovo_adapter.js:166-168 | a history replay is dropped regardless of its author |
| Route.IndexFrom | lib/trovo_adapter.js:46 | the result is -1 or an index at or after the starting point where the pattern occurs, and there is no occurrence between the starting point and that result |
| Route.IndexOf | lib/trovo_adapter.js:46 | `indexOf` is -1 exactly when the pattern does not occur; otherwise it is its first occurrence |
| Route.Decide | lib/trovo_adapter.js:45-52 | a request is aborted if and only if its resource type is `image` or `font` or its URL contains `google`; otherwise it continues |
| Transport.Page.constructor | lib/trovo_adapter.js:43 | a freshly opened page has an empty action log |
| Transport.Page.Fill | lib/trovo_adapter.js:190 | filling the chat input appends one `Fill(text)` to the page log and changes nothing else |
| Transport.Page.PressEnter | lib/trovo_adapter.js:191 | pressing Enter appends one `PressEnter` to the page log |
| Transport.Rendering | lib/trovo_adapter.js:188-192 | the actions sending n messages performs: exactly 2n of them, and none for no messages |
| Transport.RenderingAt | lib/trovo_adapter.js:188-192 | message k is filled at position 2k and submitted at 2k+1, so input order is kept |
| Transport.RenderingSnoc | lib/trovo_adapter.js:188-192 | one more message appends exactly its fill and its Enter |
| Transport.FilledTextsOfRendering | lib/trovo_adapter.js:188-192 | the texts typed into the page, read back from the rendering, are the input texts in the input order |
| Adapter.Activity.FromChat | lib/trovo_adapter.js:165 | the activity object starts with exactly the decoded chat's fields |
| Adapter.Stamped | lib/trovo_adapter.js:173-175 | after stamping, the recipient id is `"999999999"` and the service URL is the channel URL; text, author, history flag and conversation are unchanged |
| Adapter.StampIdempotent | lib/trovo_adapter.js:173-175 | stamping an already stamped activity changes nothing |
| Adapter.StampKeepsVerdict | lib/trovo_adapter.js:164-175 | stamping does not change whether the filter accepts the activity |
| Adapter.StampForgetsRouting | lib/trovo_adapter.js:174-175 | whatever routing values the decoded chat carried are overwritten: chats that differ only there stamp to the same activity |
| Adapter.DispatchedIff | lib/trovo_adapter.js:145-175 | a frame dispatches `a` if and only if it decodes to a blob whose chat passes the filter and `a` is that chat stamped |
| Adapter.IgnoredFramesDispatchNothing | lib/trovo_adapter.js:145-153 | a text frame, a non-data frame or a malformed frame dispatches nothing |
| Adapter.Dispatched | lib/trovo_adapter.js:145-175 | one received frame hands at most one activity to the middleware, and every activity it hands on carries the bot's recipient id and the channel URL, is not a history replay and is not by the bot |
| Adapter.Texts | lib/trovo_adapter.js:188-190 | the texts read from the outbound activities are one per activity, in the same order |
| Adapter.ReplayedFrameDispatchedTwice | lib/trovo_adapter.js:145-179 | nothing de-duplicates: the same chat frame received twice reaches the middleware twice, as two equal activities carrying the chat's text, the bot recipient id and the channel URL |
| Adapter.ReceiveTwice | lib/trovo_adapter.js:145-179 | for any adapter, opcode and payload, receiving the same frame twice appends its dispatch twice and keeps the adapter's invariant: no de-duplication anywhere on the path |
| Adapter.TrovoAdapter.constructor | lib/trovo_adapter.js:20-27 | a new adapter has dispatched nothing and its page log is empty |
| Adapter.TrovoAdapter.OnFrameReceived | lib/trovo_adapter.js:137-141 | a received frame, classified by its WebSocket opcode, appends exactly what `Dispatched` specifies to the middleware log; the invariant that every logged activity is stamped and accepted is kept |
| Adapter.TrovoAdapter.HandlePayload | lib/trovo_adapter.js:145-162 | decoding a payload appends exactly `Dispatched(kind, buf, …)` to the middleware log and keeps the invariant |
| Adapter.TrovoAdapter.MessageToActivity | lib/trovo_adapter.js:164-171 | a blob appends the stamped chat to the middleware log if the filter accepts its decoded chat, and nothing otherwise |
| Adapter.TrovoAdapter.ProcessActivity | lib/trovo_adapter.js:173-179 | the activity object is stamped in place, with all other fields unchanged, and is then appended to the middleware log; the invariant holds afterwards exactly when it held before and the filter accepts the activity, so it is kept on the frame path, which filters first |
| Adapter.TrovoAdapter.SendActivities | lib/trovo_adapter.js:187-193 | the page log gains exactly `Fill(a1.text), PressEnter, …, Fill(an.text), PressEnter`, in input order; the proof is a loop invariant over the activities sent so far |

## Left out

- Browser launch, login, joining the chat, selector checks, login checks, page teardown and shutdown (`_login` apart from its route rule, `_joinChat`, `_checkSelector`, `_isLoggedIn`, `killPage`, `_shutdown`, `_handleExit`): Playwright and process I/O.
- The CDP session set-up in `_enableNetwork`: only its opcode-1 text classification is modelled (`Frames.Classify`).
- Base64 decoding of the payload: the model starts from the decoded bytes.
- The protobuf schema and its reader (`trovoproto.js`, `pbf`): trovoproto.js is not part of this model, so decoding is the abstract parameter `decode`. The model also assumes that a decoded chat always has its `channelData`, `details` and `recipient` sub-objects. If one were missing, the source would throw on the property access, and nothing would be dispatched.
- `runMiddleware`, `TurnContext` and `handleTurn` are botbuilder and Botkit internals. Handing an activity to the middleware is modelled as appending it to the adapter's `turns` log. Middleware short-circuiting and replies are not modelled.
- Concurrency: `processActivity` and `sendActivities` are async. Overlapping dispatches, unordered completion and interleaved sends are not modelled. Each call runs to completion, and each `await` is taken in program order.
- Frames.Handle: Node's `Buffer.slice` clamps a negative data start, or one past the end, instead of failing. The model reports these starts as `Malformed(StartBeforeBuffer)` and `Malformed(StartPastEnd)`. `Frames.NodeSlice` and `Frames.HandleAgreesWithNodeSlice` state what the source would pass on instead.
- Frames.Handle: a short buffer makes the source's read throw a `RangeError` out of the event listener. The model returns `Malformed(OpcodeOutOfRange)` or `Malformed(DataLengthOutOfRange)` instead of an exception.
- Transport.Action: the selector passed to `page.fill` (`selectors.chatInput` from constants.js) is not recorded, because constants.js is not part of this model. Every `Fill` targets the chat input.
- Adapter.TrovoAdapter.SendActivities: the unused `context` argument is dropped. A failed page action (a Playwright exception) is not modelled.
- The module globals `UniversalPage` and `uCanal`, with `getPage`, `getStreamer` and `setStreamer`: trivial getter and setter plumbing.
- Messages.FilterChat: the bot name is always a string. When `BOTNAME` is unset, `process.env.BOTNAME` is `undefined`, and the comparison at line 167 never holds, so no chat is dropped as the bot's own. The model does not express that case; with a name that no author uses it behaves the same.
- Logging, dotenv configuration and process signals.
