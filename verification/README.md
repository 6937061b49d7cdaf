# Streaming chat relay with a reasoning/answer phase classifier

This project is a Dafny model of the core of a small chat application. An
Express relay receives a conversation from the browser and calls a
DashScope-compatible chat-completion API in streaming mode. It then forwards
what it reads to the browser as an event stream.

The core has four parts:

- **The upstream stream decoder.** `createLLMChatCompletion` in
  `server/services/llmService.js` keeps a line buffer. Each decoded chunk is
  appended to it and the buffer is split on `\n`. Every piece but the last is a
  complete line; the last piece is held back for the next chunk. Blank lines,
  the `data: [DONE]` marker and lines without the `data: ` prefix are skipped.
  The rest of a line after `data: ` is trimmed and parsed.
- **The phase classifier.** This is the same function's `isThinking` state
  machine. A delta with a truthy `reasoning_content` outside the thinking phase
  enters it and resets the reasoning text. A delta with a truthy `content`
  inside it leaves it. Either delta is consumed as a signal only. Otherwise the
  fragment of the current phase is appended to that phase's cumulative text,
  and the cumulative text goes to `onThinking` or `onUpdate`.
- **The relay's handlers** in `server/index.js`.
  - `activeRequestControllers` is a process-wide map from session id to an
    `AbortController`.
  - `/api/chat` validates the history and registers a controller. It aborts the
    controller it supersedes. It relays callbacks as `data: <json>\n\n` frames
    and ends with `data: [DONE]`. On a normal return it deletes the registry
    entry. On a throw it reports the error as a 500 reply or as an error frame.
  - `/api/abort` aborts and deletes a session's entry.
- **The browser side.**
  - `createChatCompletion` in `src/services/llmService.js` is the same decoder
    without the classifier. It keeps truthy `content` only.
  - `checkIncompleteStreaming` decides at start-up whether a message was left
    streaming.
  - The Pinia store `src/stores/chat.js` holds the message array that its
    actions change in place.

How the model is built:

- Functions that only compute are Dafny functions.
- Code that updates variables in loops is modelled as methods with loops. Each
  method is proved against a specification function:
  - `ReadStream`, `ProcessLines` and `ProcessLine` against `Run`/`Completion`;
  - `ReadContent` against `ContentRun`/`ClientCompletion`.
- Objects whose state changes are classes:
  - `ChatStore.Store` (the store);
  - `RelayServer.ChatServer` (the registry);
  - `RelayServer.Sink` (an HTTP response);
  - `RelayServer.Controller` (an `AbortController`).

Callbacks are modelled as the sequences of invocations they receive.
`JSON.parse` together with the shape guards on `choices[0].delta` is a parameter
`parse: string -> Payload`. The network is a `Response` value: either `fetch`
rejects, or a status arrives with the decoded chunks and an optional rejection
of the reader.

The main results:

- **Chunk boundaries do not matter.** The lines processed are the complete lines
  of the concatenated stream, and the buffer is what follows the last newline
  (`FeedAllSplits`, `ChunkingInvariant`). A trailing partial line is never
  processed (`TrailingPartialNotProcessed`, `TrailingPartialLineIgnored`).
- **Cumulative texts grow.**
  - The texts handed to `onUpdate` strictly extend one another, and the last of
    them is the resolved value (`UpdatesAccumulate`, `ReturnsLastUpdate`).
  - Within a thinking run, the texts handed to `onThinking` strictly extend one
    another (`ThinkingAccumulates`).
  - Entering the thinking phase resets the reasoning text and emits nothing
    (`ClassifyPhases`).
- **Inert lines are ignored.** A line that carries nothing leaves the
  classification unchanged wherever it occurs (`RunSkipsInert`).
- **The two decoders agree.** Without reasoning deltas, the relay's classifier
  behaves exactly like the browser decoder (`AgreesWithRelay`).
- **Frames round-trip.** Every frame the relay writes is one event of the stream
  and decodes back to itself, because the quoting round-trips
  (`FrameIsOneEvent`, `DecodeEventLine`, `UnescapeEscape`).
- **The registry behaves as written.**
  - Registering under a live session id aborts the previous controller.
  - No registered controller is ever aborted, and no controller is registered
    twice (`ChatServer.Valid`).
  - A normal return deletes the session id whatever controller it maps to by
    then.

`SupersededCompletionEvictsSuccessor` exhibits a consequence of that last point,
in code order. A superseded request resolves with `''` after its abort. Its
handler then deletes the session id that now maps to the newer, still running
request, so a later `/api/abort` for that session answers 404.

Two places where the code does less than one might expect are
modelled as the code behaves:

- The chat handler only rejects a history that is not an array. An empty array
  is accepted.
- On a throw, the handler does not delete the registry entry, so the new, unaborted
  controller stays registered (`HandleChat`'s throw case).

## Model

| member | source | states |
|---|---|---|
| Text.TrimStart | server/services/llmService.js:65 | the result is a suffix of the input; everything removed is ECMAScript white space; the result does not start with white space |
| Text.TrimEnd | server/services/llmService.js:71 | the result is a prefix of the input; everything removed is white space; the result does not end with white space |
| Text.TrimAllSpace | server/services/llmService.js:65 | a line made only of white space trims to the empty string, so the decoder skips it |
| Text.Decimal | server/services/llmService.js:44 | `String(status)` is a non-empty run of decimal digits whose value is the number, with no leading zero unless it is `0` itself, so it is exactly the text of the number |
| Text.Magnitude | src/services/llmService.js:90 | the unsigned part of `parseInt`: text that starts with a digit 1-9 always reads as a number |
| Text.ParseInt | src/services/llmService.js:90 | `parseInt` without radix: empty or white-space-only text is NaN; a negative result needs a leading `-` after the white space; text starting with a digit 1-9 after white space reads as a non-negative number |
| Text.MagnitudeDecimal | src/services/llmService.js:90 | the digits of `String(n)` read back as `n` |
| Text.ParseIntDecimal | src/services/llmService.js:90 | `parseInt` reads back the index written as `String(n)`: the result is `n` |
| Text.ParseIntNoDigits | src/services/llmService.js:90 | `parseInt` of text that does not start with white space, a sign or a digit (such as `"null"`) is NaN |
| LineBuffer.Split | server/services/llmService.js:61 | `split('\n')` yields at least one piece; no piece holds a newline; the pieces joined with `\n` give the input back |
| LineBuffer.SplitJoin | server/services/llmService.js:61 | for newline-free pieces, splitting their join gives the pieces back: the split is the unique such decomposition |
| LineBuffer.Reassemble | server/services/llmService.js:61-62 | a text equals its complete lines, each followed by `\n`, then the held-back last piece, which holds no newline |
| LineBuffer.SplitAppend | server/services/llmService.js:58-62 | splitting `x + y` gives the complete lines of `x`, then the split of the rest of `x` continued by `y` |
| LineBuffer.Feed | server/services/llmService.js:58-62 | appending a chunk and popping the last piece: the emitted lines, each with `\n`, then the new buffer, are exactly old buffer + chunk; no line and not the buffer holds a newline |
| LineBuffer.FeedStep | server/services/llmService.js:58-62 | feeding a chunk to the buffer left by `text` completes exactly the lines of `text + chunk` beyond those of `text`, and leaves its rest |
| LineBuffer.FeedAllSplits | server/services/llmService.js:54-64 | over any chunking, the lines processed are the complete lines of the concatenation, and the buffer is its text after the last newline |
| LineBuffer.ChunkingInvariant | server/services/llmService.js:54-64 | two chunkings of the same text process the same lines and leave the same buffer |
| LineBuffer.TrailingPartialNotProcessed | server/services/llmService.js:54-62 | a newline-free last chunk completes no line; it stays in the buffer when the stream ends |
| Upstream.PrefixedNotBlank | server/services/llmService.js:65-70 | a line with the `data: ` prefix never trims to the empty string |
| Upstream.LinePayloadCarries | server/services/llmService.js:65-72 | the line filter shared by both decoders (also src/services/llmService.js:54-61): a line carries a payload exactly when it has the `data: ` prefix and does not trim to the `[DONE]` marker |
| Upstream.BlankLineInert | server/services/llmService.js:65 | a white-space-only line carries no payload and cannot affect the decoders |
| Upstream.UnprefixedLineInert | server/services/llmService.js:70 | a line without the `data: ` prefix carries no payload, whatever JSON it holds |
| Upstream.PayloadsAppend | server/services/llmService.js:64-72 | the payloads of two runs of lines are the payloads of each run, in order |
| ServerLlm.Classify | server/services/llmService.js:79-97 | the phase rule on one payload: at most one callback, appended after the earlier ones; `fullResponse` only grows; while the phase stays the same the reasoning text only grows; without `onThinking` only `onUpdate` can be called |
| ServerLlm.ProcessDelta | server/services/llmService.js:74-97 | one delta with a truthy fragment moves the classifier's variables and callbacks exactly as the phase rule `Classify` says |
| ServerLlm.ProcessLine | server/services/llmService.js:64-102 | the body of the line loop: a skipped, unprefixed or malformed line, or a delta without a truthy fragment, leaves the state alone; otherwise the delta is classified (`Step`) |
| ServerLlm.ProcessLines | server/services/llmService.js:64-103 | the line loop leaves the classifier in the state of classifying the lines in order (`Run`) |
| ServerLlm.RunSnoc | server/services/llmService.js:64-103 | classifying one more line is one more step of the classifier |
| ServerLlm.ClassifiedAppend | server/services/llmService.js:54-104 | classifying two runs of payloads in turn is classifying their concatenation, so the state carries across chunks |
| ServerLlm.RunAppend | server/services/llmService.js:54-104 | classifying two runs of lines in turn is classifying their concatenation |
| ServerLlm.ReadStream | server/services/llmService.js:47-104 | the read loop: `fullResponse` and the callbacks equal the classification of the complete lines of the whole stream, whatever the chunking |
| ServerLlm.CreateLLMChatCompletion | server/services/llmService.js:17-115 | a missing key throws without a request; otherwise the request asks for `deepseek-r1` with the `{role, content}` history and `stream: true`; a non-ok status throws `HTTP error! status: N` with no callbacks; an abort resolves with `''`; other failures rethrow; a normal end resolves with `fullResponse` |
| ServerLlm.ClassifyPhases | server/services/llmService.js:74-97 | which delta does what: a line without a delta or a delta without a truthy fragment changes nothing; truthy reasoning outside thinking enters it with the reasoning text reset and nothing emitted; truthy content inside thinking leaves it with nothing else changed; inside thinking a reasoning-only delta appends its fragment and calls `onThinking` (if given) with the new text; outside thinking a content-only delta appends its fragment and calls `onUpdate` with the new text; at most one callback runs |
| ServerLlm.UpdatesAccumulate | server/services/llmService.js:94-97 | over any run, each text handed to `onUpdate` strictly extends the previous one (the first extends the starting text); the last is the final `fullResponse`; with no update, `fullResponse` is unchanged |
| ServerLlm.ThinkingAccumulates | server/services/llmService.js:89-93 | while the classifier stays thinking, `fullResponse` is unchanged, `onUpdate` is not called, the reasoning text only grows, each `onThinking` text strictly extends the previous one, the last is the final reasoning text, and without `onThinking` nothing is emitted |
| ServerLlm.ContentOnlyStream | server/services/llmService.js:94-97 | outside the thinking phase, content-only deltas call `onUpdate` exactly once each and `onThinking` never, and the phase stays answer |
| ServerLlm.InertStep | server/services/llmService.js:64-74 | a skipped, malformed or fragment-free line leaves the classifier as it was |
| ServerLlm.RunSkipsInert | server/services/llmService.js:64-74 | removing such a line from anywhere in the stream changes nothing in the result |
| ServerLlm.TrailingPartialLineIgnored | server/services/llmService.js:54-62 | text after the last newline changes neither the callbacks nor the outcome of the call |
| ServerLlm.ReturnsLastUpdate | server/services/llmService.js:95-106 | a stream that ends normally resolves with the last text handed to `onUpdate`, or `''` if there was none |
| ServerLlm.ReasoningThenContentExample | server/services/llmService.js:79-97 | reasoning a, reasoning b, content x, content y: the callbacks are `onThinking("b")` then `onUpdate("y")`, and the result is `"y"` |
| ClientLlm.ContentLine | src/services/llmService.js:53-71 | the body of the line loop: a skipped line or one without truthy `content` changes nothing; otherwise the fragment is appended and the cumulative text emitted (`Accept`) |
| ClientLlm.ContentLines | src/services/llmService.js:53-72 | the line loop decodes the lines in order (`ContentRun`) |
| ClientLlm.DecodeAppend | src/services/llmService.js:43-73 | decoding two runs of payloads in turn is decoding their concatenation |
| ClientLlm.ContentRunAppend | src/services/llmService.js:43-73 | decoding two runs of lines in turn is decoding their concatenation |
| ClientLlm.ReadContent | src/services/llmService.js:38-73 | the read loop's result and updates equal the decoding of the complete lines of the whole stream, whatever the chunking |
| ClientLlm.CreateChatCompletion | src/services/llmService.js:15-80 | the request always goes out, for `qwq-32b` with the `{role, content}` history and `stream: true`; a non-ok status throws with no updates; any failure, an abort included, is rethrown; a normal end resolves with the accumulated content |
| ClientLlm.DecodeConcatenates | src/services/llmService.js:63-75 | the result is the in-order concatenation of the truthy `content` fragments; one `onUpdate` call per fragment; the k-th call gets the first k fragments concatenated |
| ClientLlm.UpdatesGrow | src/services/llmService.js:63-75 | each text handed to `onUpdate` strictly extends the previous one, and the last is the result (`''` if there is none) |
| ClientLlm.ReasoningIgnored | src/services/llmService.js:63 | removing `reasoning_content` from every delta changes neither the updates nor the result |
| ClientLlm.AgreesWithRelay | src/services/llmService.js:63-66 | on payloads with no truthy `reasoning_content`, the relay's classifier never enters thinking and produces exactly the browser decoder's `onUpdate` texts and result |
| ClientLlm.ClientTrailingPartialLineIgnored | src/services/llmService.js:43-51 | text after the last newline changes neither the updates nor the outcome of the browser call |
| ClientLlm.CheckIncompleteStreaming | src/services/llmService.js:87-98 | the log statement throws exactly when the stored chat is not JSON; otherwise the callback gets an index exactly when `isStreaming` is the text `'true'` and the parsed index is a number at least 0, and that index is the parsed value |
| ClientLlm.MarksStoredIndex | src/services/llmService.js:89-96 | an index stored as `String(n)` while streaming is handed back as `n` |
| ClientLlm.MissingIndexNoMark | src/services/llmService.js:90-94 | with no stored index, `parseInt(null)` is NaN and the callback is never called |
| ChatStore.Project | src/stores/chat.js:87-90 | the history sent has one `{role, content}` turn per stored message, in order |
| ChatStore.Store.constructor | src/stores/chat.js:5-8 | no messages, not loading |
| ChatStore.Store.AddUserMessage | src/stores/chat.js:15-21 | appends one user message, changes nothing else |
| ChatStore.Store.AddModelMessage | src/stores/chat.js:28-37 | appends one streaming assistant message and returns its index, the old length |
| ChatStore.Store.UpdateModelMessage | src/stores/chat.js:44-49 | in range, replaces only that message's content; out of range, nothing changes |
| ChatStore.Store.SetMessageComplete | src/stores/chat.js:55-60 | in range, clears only that message's `streaming` flag; out of range, nothing changes |
| ChatStore.Store.SetLoading | src/stores/chat.js:66-68 | sets `loading`, messages unchanged |
| ChatStore.Store.StreamInto | src/stores/chat.js:93-98 | calling `updateModelMessage` once per update leaves the placeholder holding the last update and every other message unchanged |
| ChatStore.Store.SendMessageToLLM | src/stores/chat.js:75-107 | the history sent is the old messages, the user message and an empty assistant turn; afterwards the store holds the old messages, the user message and the assistant message with the last update, streaming only if the call threw; on success that content is the call's result; loading ends false |
| ChatStore.ReturnedIsLastUpdate | src/stores/chat.js:93-101 | on success the call's result is the last text handed to `onUpdate`, or `''` |
| Frames.EscapeChar | server/index.js:56 | the `JSON.stringify` escape of one character is non-empty and holds no newline |
| Frames.Escape | server/index.js:56 | a quoted string value holds no newline |
| Frames.Json | server/index.js:56-82 | the JSON of a frame holds no newline, and every frame but the terminator is a `{…}` object |
| Frames.Object | server/index.js:56 | a `{type, content}` or `{type, error}` object with its string value quoted holds no newline and starts with `{` and ends with `}` |
| Frames.Wire | server/index.js:56-82 | what one `res.write` sends splits into exactly the frame's `data:` line and two empty pieces: one event per write |
| Frames.EventLineNoNewline | server/index.js:56-82 | a frame's `data:` line holds no newline |
| Frames.FrameIsOneEvent | server/index.js:56-82 | every frame written splits into its `data: ` line and an empty line, and only the terminator's line is the `[DONE]` marker |
| Frames.UnescapeEscape | server/index.js:56 | reading a quoted string back gives the string (`JSON.parse(JSON.stringify(s)) == s`) |
| Frames.DecodeEventLine | server/index.js:56-82 | the line of every content, thinking, error or terminator frame decodes back to that frame |
| RelayServer.Controller.constructor | server/index.js:40 | a new controller is not aborted |
| RelayServer.Controller.Abort | server/index.js:46 | aborting sets the signal's flag |
| RelayServer.Sink.Write | server/index.js:56 | appends one frame, nothing else changes |
| RelayServer.Sink.WriteAll | server/index.js:55-61 | one write per frame, in order |
| RelayServer.Sink.End | server/index.js:69 | ends the response, frames and reply unchanged |
| RelayServer.Sink.Json | server/index.js:31 | records the status and JSON body and ends the response |
| RelayServer.EventFrames | server/index.js:55-61 | one frame per callback, in callback order: content for `onUpdate`, thinking for `onThinking` |
| RelayServer.ChatServer.constructor | server/index.js:23 | the registry starts empty |
| RelayServer.ChatServer.StartChat | server/index.js:28-49 | a history that is not an array gets 400 with nothing registered; otherwise a fresh unaborted controller; for a truthy session id the previously registered controller is aborted and replaced; the registry stays valid |
| RelayServer.ChatServer.FinishChat | server/index.js:52-85 | the callbacks become frames in order; on return, `[DONE]`, end, and deletion of the session id; on a throw before anything was sent, a 500 reply; after, an error frame with the message and end; the registry is untouched on a throw |
| RelayServer.ChatServer.HandleChat | server/index.js:26-86 | the whole chat handler: 400, no controller, no upstream call and the response ended for a bad history; otherwise a controller already registered under a truthy session id is aborted, the request asks for `deepseek-r1` with the history when the key is set; after a normal return the frames are the callbacks then `[DONE]`, no JSON reply is sent, the response ends and the session id is unregistered; after a throw the response gets a 500 reply (nothing sent yet) or the frames then an error frame, it ends, and the new controller is still registered |
| RelayServer.ChatServer.Abort | server/index.js:89-103 | 400 without a session id; for a registered one, its controller is aborted, the entry deleted and success reported; otherwise 404; the registry stays valid |
| RelayServer.SupersededCompletionEvictsSuccessor | server/index.js:43-74 | a superseded request's normal completion deletes its successor's registry entry: the first controller is aborted, the second is not, the session is no longer registered and an abort answers 404 |

## Left out

- The network, `fetch` and `TextDecoder` are not modelled. The response is a
  parameter holding the decoded chunks, with no byte-level UTF-8 decoding.
- The `Authorization` header and the URL are not modelled. The request model
  records only the JSON body.
- `JSON.parse` and the guards on `json.choices[0].delta` are a parameter
  (`parse`). A throw from the guards, for example an empty `choices` array, is
  modelled as a `Malformed` payload, because the per-line `catch` swallows both.
- Non-string `content` or `reasoning_content` values are not modelled, such as a
  number that `+=` would convert. Fragments are strings or absent.
- The abort signal is not connected to the upstream response. Whether a
  response is cut by `Aborted` is part of the `response` parameter, not derived
  from a controller's flag.
- Interleaving of concurrent handlers is not modelled. `StartChat` and
  `FinishChat` split the chat handler at its `await`, so a scenario can
  interleave them explicitly.
- Express itself is not modelled: `cors`, `express.json`, `setHeader` calls,
  `dotenv`, the port and `app.listen`. The only part of `res.headersSent` that
  is modelled is "a frame or a reply has gone out".
- `modelType` and `isDeepThinking` are passed by the chat handler but ignored
  by `createLLMChatCompletion`, so they are not modelled.
- `console.log` and `console.error` output are not modelled.
- Timestamps on stored messages are not modelled.
- The store's `persist` configuration and `localStorage` writes are not
  modelled. `checkIncompleteStreaming` takes the three stored items as
  parameters.
- Text.ParseInt: numbers beyond 2^53 (precision loss, `Infinity`) are not
  modelled, and `-0` is the integer 0.
- Text.Decimal: `String(n)` is modelled for non-negative integers only, which
  covers HTTP status codes and message indices.
- Frames.Unescape: `\u` escapes naming a surrogate are refused, because Dafny
  characters are Unicode scalar values. Lone surrogates in strings are therefore
  not modelled.
- RelayServer.ChatServer.FinishChat: the contract does not tie the `Aborted` cut
  of the response to the registered controller having been aborted.
- The browser's missing `VITE_DASHSCOPE_API_KEY` is not modelled. The request
  is sent with whatever key is configured, and a rejection shows up as a non-ok
  status of the `response` parameter.
