# go-ast-bridge core, modelled in Dafny

go-ast-bridge connects an Asterisk call, carried over the AudioSocket protocol, to a chat backend, a
speech-to-text service, an Ollama language model and a speech-synthesis service. This project models
the core of that bridge and proves properties of the model. The core is:

- The per-call session of `main.go`. It reads the call identifier from the first frame. It then runs
  a read loop that decodes 16-bit PCM audio, asks a voice-activity detector about each frame, and
  collects speech chunks into an utterance. An utterance closes when more than five silence frames
  follow speech.
- `handleInputAudio`. It merges a closed utterance, drops one of fewer than 6400 samples (0.40 s at the
  rate of 16000 the code divides by; the call audio is 8 kHz, 160 samples per 20 ms frame, main.go:27,
  so this is 0.8 s of call audio), and transcribes the rest with the language forced to Russian. It drops three known spurious captions. Otherwise it logs
  the transcript, asks the model, logs the reply, and starts the playback relay.
- The relay loop of `websocketSendReceive`. It writes each binary message back into the call as an
  audio frame until the stream ends, fails or is superseded.
- The noise gate `NoiseGate`.
- The `ChatStore` of `api/client.go`. `SendMessage` validates the turn, then:
  - stores the user message;
  - builds the model history (the system prompt, then every stored message with its role mapped);
  - asks Ollama;
  - stores the trimmed reply as the assistant message.
  `LoadChatStore` builds a store from a fetched chat.

Modules, one per file:

| file | module | contents |
|---|---|---|
| `wrappers.dfy` | `Wrappers` | `Option`, `Result` |
| `strings.dfy` | `Strings` | Go's `strings.TrimSpace` over the `unicode.IsSpace` set |
| `pcm.dfy` | `Pcm` | the little-endian sample codec, `pcmToFloat32Array`, `NoiseGate` |
| `call_protocol.dfy` | `CallProtocol` | frames and kinds, `getCallID`, the identifier's text |
| `relay.dfy` | `Relay` | `websocketSendReceive` |
| `utterance.dfy` | `Utterance` | `handleInputAudio`, `calculateAudioLength` |
| `session.dfy` | `Session` | the read loop of `Handle` |
| `chat_store.dfy` | `ChatStore` | `ChatStore`, `SendMessage`, `LoadChatStore` |

How the model stands in for the outside world:

- External services are oracles: datatypes holding functions from request to `Result`. These are the
  transcriber, the chat backend, the language model, the Ollama client and `ChatAPI`.
- What an operation does is returned as a trace of the requests it makes, in order. For `ChatStore`
  the trace is the ghost field `Calls`. This lets the contracts state order, and state that a service
  is never reached.
- The read loop and the relay loop each consume a finite sequence of events. Each event stands for
  one read together with what the stateful or external parts answered for it:
  - in the read loop, the detector's verdict and the read outcome;
  - in the relay, whether the write to the call succeeded and whether the relay was superseded.
- Samples stay as their signed 16-bit values. `pcmToFloat32Array` divides each by 32768.0; that
  scaling is an injective map and is left out.
- The duration gate `calculateAudioLength(buffer, 16000) < 0.40` is modelled as the sample count
  being below 6400. `Utterance.MinSamplesIsMinDuration` proves the two agree in exact arithmetic. In
  float64, 6400/16000 rounds to the same double as the literal 0.40, so the boundary is the same.

Facts about the code that the model keeps:

- The utterance is handed off at the sixth consecutive silence frame (`silenceCount > 5`,
  main.go:183).
- A detector error only logs (main.go:175-176): it leaves the buffer and the count unchanged.
- A hand-off empties the buffer but does not reset the silence count (main.go:182-189), so every
  further silence frame keeps counting with an empty buffer until speech resets it.
- `SendMessage` dereferences the model setting unconditionally (api/client.go:404), even though
  api/client.go:396-397 add it to the options only when it is set. The model returns a distinct
  `NilModelPanic` outcome for that path. The user message has already been stored by then, and Ollama
  is never asked.

## Model

| member | source | states |
|---|---|---|
| Pcm.DecodeEncodeSample | main.go:304-312 | decoding the two bytes written for a sample gives the sample back |
| Pcm.EncodeDecodeSample | main.go:304-312 | encoding a decoded byte pair gives the pair back, so every pair is a sample |
| Pcm.SamplesAt | main.go:323-332 | sample `i` of an even byte string is the signed little-endian value of bytes `2i` and `2i+1`, and there are `len/2` samples |
| Pcm.EncodeAt | main.go:302-313 | an encoding holds sample `i` at bytes `2i` (low) and `2i+1` (high) |
| Pcm.SamplesOfEncode | main.go:318-335 | decoding an encoding gives the samples back |
| Pcm.EncodeOfSamples | main.go:318-335 | encoding the decoded samples gives the even-length input back |
| Pcm.PcmToSamples | main.go:318-335 | an error exactly when the length is odd; otherwise `len/2` samples, sample `i` decoded from bytes `2i`, `2i+1` |
| Pcm.GatedSpec | main.go:298-316 | the gated output is as long as the input; a sample quieter than the threshold becomes 0, any other is unchanged; a trailing odd byte becomes 0 |
| Pcm.NoiseGate | main.go:298-316 | a fresh array (the input is only read) of the input's length, equal to the gate's description |
| CallProtocol.GetCallId | main.go:61-70 | succeeds exactly for a successful read of an identifier frame with a 16-byte payload, whose payload is the identifier; end of stream, a read error and a wrong payload length each give their own error |
| CallProtocol.GetCallIdOfIdFrame | main.go:61-70 | the identifier a call announces is the one obtained |
| CallProtocol.KindOf | main.go:66 | the kind read from a tag byte carries that tag |
| CallProtocol.TagInjective | main.go:66 | no two kinds share a tag byte, so an identifier frame is told apart from every other kind |
| CallProtocol.GetCallIdRejectsOtherKinds | main.go:66-68 | a first frame of another kind gives the error that names the kind's tag |
| CallProtocol.Decimal | main.go:67 | the `%d` text of the tag is a non-empty string of decimal digits |
| CallProtocol.DecimalRoundTrip | main.go:67 | that text reads back as the number and has no leading zero |
| CallProtocol.Hex | main.go:88-90 | two lower-case hexadecimal digits per byte: the high nibble's digit at `2i`, the low nibble's at `2i+1` |
| CallProtocol.UuidString | main.go:88-90 | the chat identifier is 36 characters with dashes at 8, 13, 18 and 23 |
| CallProtocol.UuidStringAt | main.go:88-90 | byte `i` of the call identifier is spelled by the two digits at its place in the 8-4-4-4-12 text |
| CallProtocol.UuidStringInjective | main.go:88-90 | two call identifiers with the same text are the same, so each call has its own chat identifier |
| Relay.RelayWritesBinariesBeforeStop | main.go:441-477 | the frames written are exactly the binary messages before the first stopping event, in order, and the relay ends for that event's reason |
| Relay.IgnoredEventIsInvisible | main.go:455-475 | a text message other than end-of-audio, or a message of another type, changes nothing |
| Relay.NothingAfterStop | main.go:441-477 | events after cancellation, a read error, end-of-audio or a failed write have no effect |
| Relay.WebsocketSendReceive | main.go:427-477 | a failed dial sends and writes nothing; a failed send writes nothing; otherwise the loop's result is `RelayFold` over the events |
| Utterance.FlattenLength | main.go:197-201 | the merged utterance has as many samples as the duration count sums up |
| Utterance.FlattenAppend | main.go:197-200 | merging is in-order concatenation, distributing over chunk lists |
| Utterance.MinSamplesIsMinDuration | main.go:201-206 | `n / 16000 < 0.40` exactly when `n < 6400` |
| Utterance.Contains | main.go:239-245 | the denylist scan finds exactly the strings in the list |
| Utterance.DeniedExactly | main.go:239-245 | a transcript is dropped exactly when it equals one of the three captions |
| Utterance.ShortUtteranceIsDropped | main.go:201-206 | an utterance under 6400 samples reaches no service |
| Utterance.TranscriptionComesFirst | main.go:207-212 | any other utterance is first sent whole to the transcriber with language "ru" and the other settings as configured |
| Utterance.DeniedTranscriptGoesNowhere | main.go:208-245 | a failed or denylisted transcription ends the turn after the transcription request |
| Utterance.SuccessfulTurnOrder | main.go:246-282 | when all services succeed: transcription, user message, model (gemma2:9b, the user's text, the ten options), assistant message, relay of the reply in "ru" at speed 1.0 with 0.015 s between chunks |
| Utterance.StepsHappenInOrder | main.go:246-282 | in every trace the model is asked only right after a successful post of the user message, and the relay of the model's reply starts only right after a successful post of the assistant message; a trace that stops early stops at a failed transcription or denylisted transcript, a failed user post, a failed model call or a failed assistant post |
| Utterance.MergeChunks | main.go:197-200 | the merge loop produces the in-order concatenation |
| Utterance.HandleInputAudio | main.go:195-284 | the requests made are the utterance's trace |
| Session.SpeechAppends | main.go:177-180 | a speech frame appends its samples and resets the count |
| Session.SilenceCounts | main.go:181-189 | a silence frame adds one to the count; it hands off the buffer exactly when the count passes 5 and the buffer is non-empty, then empties the buffer and keeps the count |
| Session.SilenceAfterHandoff | main.go:181-189 | with an empty buffer, silence only counts |
| Session.OtherEventsChangeNothing | main.go:159-176 | an error frame, another kind, an empty or odd payload, a read error and a detector error leave buffer and count alone |
| Session.RunKeepsEverySpeechChunk | main.go:148-193 | the hand-offs followed by the remaining buffer are exactly the accepted speech chunks in arrival order |
| Session.RunHandsOffNonEmpty | main.go:183-188 | every utterance handed off is non-empty |
| Session.EndDropsPartialUtterance | main.go:148-158 | a hangup or end of stream ends the loop at once; the partial utterance is never handed off and later events are not read |
| Session.SilencesWithoutSpeech | main.go:181-189 | a run of `n` silence frames on an empty buffer hands off nothing and adds `n` to the count |
| Session.SilencesAfterSpeech | main.go:181-189 | a run of silence after speech hands off the utterance once, exactly when the count passes 5 |
| Session.SixthSilenceClosesUtterance | main.go:143-189 | three speech frames and five silences hand off nothing; the sixth silence hands off exactly the three chunks |
| Session.HandleEvent | main.go:149-192 | one turn of the loop body agrees with the step function, and makes the requests of the utterance it hands off |
| Session.ReadLoop | main.go:143-193 | the loop's hand-offs and final state are the fold over the events, and its requests are those of the hand-offs in order |
| Session.HandleCall | main.go:72-193 | a failed call identifier or setup makes no hand-off and no request; otherwise the read loop runs with the identifier's text as the chat identifier |
| Strings.TrimSpaceShape | api/client.go:343 | the trimmed string is an infix; everything outside it is white space; it neither starts nor ends with white space |
| Strings.TrimSpaceEmptyIff | api/client.go:343 | a string trims to "" exactly when it is all white space |
| Strings.TrimSpaceIdempotent | api/client.go:420 | trimming twice is trimming once |
| ChatStore.RoleName | api/client.go:374-384 | the three known roles map to themselves, any other role to "system"; the result is always one of the three |
| ChatStore.History | api/client.go:373-389 | one history entry per stored message, in order, with role mapped and content unchanged |
| ChatStore.BuildPrompt | api/client.go:360-391 | `1 + len` entries: the system prompt ("" when unset) first, then entry `i+1` from message `i` |
| ChatStore.SparseOptions | api/client.go:394-398 | the options have only the key "model", present exactly when the model is set, holding its value |
| ChatStore.SendRejectsBlank | api/client.go:343-347 | a blank chat or content fails before any request and does not record the error; every other turn makes a request |
| ChatStore.SendPostsUserMessageFirst | api/client.go:349-351 | the user message goes first, unchanged; every message posted is for the current chat; at most three requests |
| ChatStore.SendUserFailure | api/client.go:351-356 | a failed user send is returned and recorded, and the log is unchanged |
| ChatStore.SendKeepsUserMessage | api/client.go:357 | once stored, the user message stays at the end of the old log; the log grows by one unless the turn succeeds |
| ChatStore.SendNilModel | api/client.go:360-404 | the panic happens exactly when the user message was stored and the model is unset; Ollama is not asked |
| ChatStore.SendAsksModel | api/client.go:403-412 | Ollama is asked second, exactly when the user message was stored and a model is set, with the whole log behind the system prompt, no streaming, the sparse options |
| ChatStore.SendModelFailure | api/client.go:412-426 | a model error or a blank trimmed reply is returned and recorded, and the assistant message is not sent |
| ChatStore.SendSuccess | api/client.go:420-439 | a turn succeeds only when it passed validation, both posts succeeded, a model is set and the trimmed reply is non-blank; it returns the untrimmed reply, posts the trimmed one as assistant, grows the log by the two stored messages and keeps the error text (the converse is SendSucceedsWhenAllSucceed) |
| ChatStore.SendSucceedsWhenAllSucceed | api/client.go:343-439 | when validation passes, the user post succeeds, a model is set, Ollama answers with a non-blank trimmed reply and the assistant post succeeds, the turn ends `Sent` with the model's response, the two stored messages and the error text kept |
| ChatStore.SendAssistantFailure | api/client.go:428-435 | a failed assistant post after a usable reply is returned and recorded as the error, after three requests, with only the user message added to the log |
| ChatStore.SendRecordsFailures | api/client.go:343-435 | every failure after validation is recorded as the error text; other outcomes leave it alone |
| ChatStore.Store.constructor | api/client.go:312-318 | a new store has the given collaborators, no chat, an empty log and default settings |
| ChatStore.Store.SendMessage | api/client.go:337-440 | outcome, new log, new error text and requests made are those of the turn's definition; nothing else changes |
| ChatStore.LoadChatStore | api/client.go:321-334 | a failed fetch is returned as is; otherwise a fresh store holds the chat ID, the chat, its messages and its settings |

## Left out

- Concurrency is not modelled: the `ChatStore` mutex, the `AudioWriter` mutex, the `wsMutex`/`wsCancel` supersession and the relay goroutine. A new relay cancelling the previous one is a `Cancelled` event in the old relay's event sequence.
- Relay.WebsocketSendReceive: the relay goroutine starts inside `websocketSendReceive` (main.go:420), just before `handleInputAudio` returns, and then runs concurrently with the read loop. The session model only records that it starts (`StartRelay`); it does not interleave the relay's writes into the call with the read loop's events.
- Floating point is not modelled: the division by 32768.0 in `pcmToFloat32Array` and the float64 duration. Samples stay integers and the gate is the equivalent count below 6400.
- `sendFloat32ArrayToServer` (the HTTP transcription request and its JSON) is an oracle from samples and settings to a transcript or an error.
- Session.HandleCall: the session setup in `Handle` before the read loop is one abstract success-or-failure input. That setup fetches or starts the chat, fetches the settings and seeds the model conversation. `setup == Ok` stands only for a chat that was fetched. When `GetChat` fails, `chat` is nil (chat.go:107-120); main.go:93-100 then only starts a new chat, and main.go:127 dereferences the nil `chat.Messages`. That panic is in the per-call goroutine, is not recovered, and ends the whole process; the model does not capture it. The call identifier check is modelled.
- `chat.go` is not part of this model. Neither are the HTTP implementations of `ChatAPI` and `OllamaAPIClient`, `Listen`, and `main`. The remaining `ChatAPI` methods (`UpdateChat`, `GetMessages`, `StartChat`) are not called by the modelled code.
- The AudioSocket framing library is not part of this model. Frames are read as already decoded. The tag bytes (hangup 0x00, identifier 0x01, audio 0x10, error 0xff) follow that protocol. A non-EOF read error is taken to yield a frame the loop ignores. The length limit of an outgoing frame is not modelled.
- `uuid.FromBytes` and `UUID.String` are modelled from their documented behaviour: exactly 16 bytes, and lower-case 8-4-4-4-12 text.
- The voice-activity detector (`webrtcvad`) is stateful and external. Its verdict is carried by each event. The detector's creation and mode at lines 76-82 are left out.
- Session.ReadLoop: runs over a finite sequence of events. The `ctx.Err()` loop condition is not modelled, because nothing cancels the context while the loop runs.
- The result of `calculateAudioLength` at line 179 is discarded by the source and has no effect.
- An oracle answers the same request the same way every time. The backend assigning fresh message identifiers to repeated identical requests is not modelled.
- Utterance.Services: the reply oracle `chat` is a function of the request alone. The go-ollama client at main.go:253 keeps a conversation per chat ID, seeded at main.go:124-141 with the system prompt and the stored messages and extended by every turn; the model's reply ignores that conversation state.
- A successful collaborator call is taken to return a non-nil message, chat or response.
- Logging is not modelled.
- Strings are modelled as sequences of Unicode scalar values (`seq<char>`). Go strings are UTF-8 byte strings: an invalid byte, which `strings.TrimSpace` reads as U+FFFD (not white space) and which the denylist comparison at main.go:241 compares byte by byte, cannot be represented.
- The `User` field of `ChatStore` is never assigned by the modelled code and stays `None`.
