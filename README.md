# Salon chat front-end: conversation state machine in Dafny

This project models the client-side conversation logic of a salon chatbot
web front-end. The model covers four parts:

- **The orchestrator** (`App.tsx`). It owns the message log, the loading
  state (Idle, Recording, Transcribing, Thinking), the chat session and the
  user's location. Module `App` holds it:
  - a pure transition function `Step` over `AppState`;
  - `Run`, which applies a sequence of events;
  - the class `ChatApp`, whose fields the handlers update in place. Each of
    its methods is proved to agree with `Step`.

  Every `await` splits a handler into a start event and a result event. A
  handler that depends on a remote result takes that result as a parameter:
  a reply, a send failure, a transcript or a transcription failure.
- **The input bar** (`components/InputArea.tsx`). Module `InputArea` holds:
  - the class `InputController`, with the text buffer, the `isRecording`
    flag, the media recorder reference and the audio-chunk buffer;
  - the pure predicates that enable or disable the textarea and the two
    buttons.

  The calls the component makes outward are recorded in order in an
  `outbox`. These are `onSendMessage`, `onSendAudio` and stopping the
  microphone tracks.
- **Source-link selection** (`components/ChatMessage.tsx`). Module
  `ChatMessageView` maps a message's grounding chunks to the links shown
  under it, and decides whether the Sources block appears.
- **The shared declarations** (`types.ts`). These are in module `Types`.
  Module `JsText` models `String.prototype.trim` and the truthiness of its
  result. Both the send guard and the transcript check use it.

## Noteworthy behaviour

The code behaves as follows, and the model follows it:

- **The state never becomes Recording.** No handler in `App.tsx` sets
  `LoadingState.Recording` (`App.NeverRecording`). While a recording runs and
  no reply is pending, the state is Idle and the textarea stays enabled.
  Typed text then disables the record button, so the running recording
  cannot be stopped from that button while text is in the box. The typed
  text can also be sent during the recording
  (`InputArea.TypingWhileRecordingScenario`). The orchestrator then moves to
  Thinking while the recorder keeps running.
- **The microphone is released on one path only.** The tracks are stopped
  only after the encoded audio has been handed to `onSendAudio`
  (`InputArea.InputController.OnBlobEncoded`). No other path stops them.
- **A voice message can leave the state stuck.** If a transcript with
  content arrives while there is no chat session, `handleUserMessage`
  returns before changing anything, so the state stays at Transcribing
  (`App.TranscriptWithoutSessionIsStuck`).
- **Voice messages are not flagged.** No message is ever created with
  `isAudio` set, and that includes messages from voice input
  (`App.WellFormedLogPreserved`).

## Model

| member | source | states |
|---|---|---|
| Types.OptionalFieldsAreIndependent | types.ts:2-25 | A chunk may have both sources, one, or neither. An absent chunk list is a different message from an empty one. |
| Types.LoadingStateHasFourValues | types.ts:27-32 | The loading state takes exactly four values. |
| JsText.ContentStart | components/InputArea.tsx:26 | The front scan of `trim`: it stops at the first character that is not white space, or at the end. Everything it skips is white space. |
| JsText.ContentEnd | App.tsx:104 | The back scan of `trim`: it stops just past the last character that is not white space, or at the start of the range. Everything it skips is white space. |
| JsText.Trim | components/InputArea.tsx:26 | `s.trim()` is no longer than `s` and neither starts nor ends with white space. `TrimEmptyIffBlank` ties its emptiness to `s` and `TrimIsInfix` ties its position in `s`. |
| JsText.TrimEmptyIffBlank | components/InputArea.tsx:26 | `s.trim()` is empty iff every character of `s` is white space. So `s.trim()` is truthy iff some character is not white space. |
| JsText.TrimIsInfix | App.tsx:104 | The trimmed string is the slice of the input that starts where the leading white space ends. Every character outside that slice is white space. |
| ChatMessageView.SenderNameOnlyForModel | components/ChatMessage.tsx:9-25 | A message is the user's iff its role is `user`. The sender-name header appears iff the role is `model`. |
| ChatMessageView.LabelOr | components/ChatMessage.tsx:48 | The label is the title unless the title is absent or empty; then it is the fallback. |
| ChatMessageView.LinkFor | components/ChatMessage.tsx:38-66 | A chunk yields no link iff it has neither `web` nor `maps`. With `web` it yields a web link to `web.uri` labelled by the title or "Web Source", even when `maps` is also present. With only `maps` it yields a maps link to `maps.uri` labelled by the title or "Google Maps". A label is never empty. |
| ChatMessageView.Links | components/ChatMessage.tsx:37-67 | A chunk list yields at most as many links as it has chunks. |
| ChatMessageView.RenderedLinks | components/ChatMessage.tsx:33-37 | No links are shown unless the chunk list is present and non-empty. When it is, the shown links are the mapped chunks. |
| ChatMessageView.LinksAppend | components/ChatMessage.tsx:37 | The links of a concatenation are the links of the first part followed by the links of the second. So the mapping keeps chunk order. |
| ChatMessageView.LinksLength | components/ChatMessage.tsx:37-67 | There is exactly one link per chunk that has a web or maps source. |
| ChatMessageView.LinksSound | components/ChatMessage.tsx:37-67 | Every shown link is the link of some chunk in the list. |
| ChatMessageView.LinksComplete | components/ChatMessage.tsx:37-67 | Each linkable chunk's link appears at the position given by the number of linkable chunks before it. |
| ChatMessageView.LinksAllOrNothing | components/ChatMessage.tsx:66 | Every chunk yields a link iff every chunk has a source. No link appears iff no chunk has a source. |
| ChatMessageView.EmptySourcesBlockIsPossible | components/ChatMessage.tsx:33-66 | A present, non-empty list of chunks without sources shows the Sources heading with no links under it. |
| InputArea.LoadingStates | components/InputArea.tsx:64-77 | `isLoading` holds iff the state is Transcribing or Thinking. The textarea is enabled iff the state is Idle. |
| InputArea.ControlsExcludeEachOther | components/InputArea.tsx:83-105 | Typed text disables the record button. A clickable record button implies no send button is shown. A clickable send button implies typed text and a state that is not loading. |
| InputArea.AcceptedSendHasContent | components/InputArea.tsx:25-27 | A send that goes ahead carries a character that is not white space and happens only in Idle. |
| InputArea.InputController.constructor | components/InputArea.tsx:13-16 | Starts with empty text, not recording, no recorder and no chunks. This establishes the invariant `Valid`: a recorder is active exactly while `isRecording` holds. Every event method keeps that invariant. |
| InputArea.InputController.EditText | components/InputArea.tsx:70-77 | Typing replaces the text only when the textarea is enabled. |
| InputArea.InputController.HandleSend | components/InputArea.tsx:25-29 | Empty or blank text, or a state other than Idle: nothing changes. Otherwise the untrimmed text is forwarded exactly once and the buffer becomes "". |
| InputArea.InputController.HandleKeyDown | components/InputArea.tsx:18-23 | Enter without Shift sends, as `HandleSend`. Shift+Enter and other keys change nothing. |
| InputArea.InputController.StartRecording | components/InputArea.tsx:31-55 | When the microphone is granted: an active recorder, an emptied chunk buffer and `isRecording` true. When it is refused, the state is unchanged and `isRecording` stays as it was. |
| InputArea.InputController.OnDataAvailable | components/InputArea.tsx:38-40 | Each chunk is appended at the end of the buffer. |
| InputArea.InputController.StopRecording | components/InputArea.tsx:57-62 | This is a no-op unless there is a recorder and `isRecording` holds. Otherwise the recorder stops and `isRecording` becomes false. |
| InputArea.InputController.ClickRecordButton | components/InputArea.tsx:83-85 | A disabled button does nothing. Otherwise a click while recording leaves the recorder inactive and `isRecording` false. A click when not recording starts as `StartRecording`. |
| InputArea.InputController.ClickSendButton | components/InputArea.tsx:102-105 | The button sends only when it is shown and enabled, and then as `HandleSend`. |
| InputArea.InputController.AssembleBlob | components/InputArea.tsx:42-43 | The blob holds every buffered chunk in arrival order, typed `audio/wav`. |
| InputArea.InputController.OnBlobEncoded | components/InputArea.tsx:44-46 | The encoding goes to `onSendAudio` first, and only then are the tracks stopped. |
| InputArea.VoiceCaptureScenario | components/InputArea.tsx:31-62 | Start, three data events, stop: the blob holds the three chunks in order, and the outward calls are the audio hand-off followed by the track release. |
| InputArea.MicrophoneRefusedScenario | components/InputArea.tsx:49-54 | A refused microphone leaves the controller not recording and without a recorder. |
| InputArea.TypingWhileRecordingScenario | components/InputArea.tsx:64-85 | While recording in Idle, typed text disables the record button, so the recording keeps running, and Enter still sends the text. |
| App.Initial | App.tsx:10-21 | The log is exactly one `model` message with id `welcome` and the welcome text. The state is Idle, and there is no session and no location. |
| App.ReplyText | App.tsx:72 | The reply text is used unless it is absent or empty; then the fixed fallback is used. The result is never empty. |
| App.ReplyChunks | App.tsx:75 | The grounding is present iff the first candidate exists, has metadata and has a chunk list, and then it is that list. Later candidates are never read. |
| App.SubmitUserMessage | App.tsx:57-68 | Without a session the state is unchanged. With one, the log gains exactly one user entry, with the given id and the text unchanged. The state becomes Thinking, and the session and location are kept. |
| App.Step | App.tsx:29-115 | The transition for one handler segment between two `await`s. It has no contract of its own: `StepInvariants` states its invariants, and each `ChatApp` method's contract equates that method's new state with `Step` of the old state. |
| App.StepInvariants | App.tsx:29-115 | Every event keeps the old log as a prefix and adds at most one message. The added message is well formed. No event turns another state into Recording. A session, once created, stays. Only a geolocation fix changes the stored location. |
| App.LogOnlyGrows | App.tsx:57-97 | Over any run of events the log only grows by appending, by at most one message per event. |
| App.NeverRecording | App.tsx:57-115 | From a state other than Recording, no run of events reaches Recording. |
| App.SessionPersists | App.tsx:28-53 | A session, once present, stays present over any run. |
| App.WellFormedLogPreserved | App.tsx:60-95 | Every run keeps these facts: no entry is marked as audio, user entries carry no grounding, and model entries have non-empty text. |
| App.ReachableLogsWellFormed | App.tsx:10-17 | Every log reachable from the first render is well formed. |
| App.NoSessionIgnoresSubmission | App.tsx:58 | Without a session, submitting a message changes nothing. |
| App.TextExchange | App.tsx:57-86 | With a session, a submit followed by a reply appends the untrimmed user text, then the reply text with the first candidate's grounding. The state goes to Thinking and back to Idle. |
| App.FailedExchange | App.tsx:88-97 | A failed send appends the fixed apology with no grounding after the user's message and returns to Idle. The error never reaches the log. |
| App.BlankTranscriptIgnored | App.tsx:100-109 | Audio input sets Transcribing. A blank transcript returns to Idle with the log unchanged. |
| App.TranscriptionFailureIgnored | App.tsx:110-114 | A failed transcription returns to Idle with the log unchanged. |
| App.VoiceExchange | App.tsx:100-105 | With a session, a transcript with content is submitted untrimmed, exactly like typed text. |
| App.TranscriptWithoutSessionIsStuck | App.tsx:58-105 | With no session, a transcript with content leaves the state at Transcribing and the log unchanged. |
| App.ExchangesAddTwoEach | App.tsx:57-86 | With a session, each completed exchange adds exactly two messages, the user's then the reply, in exchange order. |
| App.ExchangesEndIdle | App.tsx:57-86 | After one or more completed exchanges the state is Idle again and the session is the one they started with. |
| App.ChatApp.constructor | App.tsx:10-21 | The fields start as `Initial()`. |
| App.ChatApp.OnGeolocationSuccess | App.tsx:34-40 | The fix is stored and the session is created with it. |
| App.ChatApp.OnGeolocationError | App.tsx:42-45 | The session is created without a location. |
| App.ChatApp.InitWithoutGeolocation | App.tsx:47-49 | The session is created without a location. |
| App.ChatApp.HandleUserMessage | App.tsx:57-68 | Without a session nothing changes. Otherwise one `user` message with the untrimmed text is appended and the state becomes Thinking. |
| App.ChatApp.OnReply | App.tsx:71-86 | One `model` message is appended with the reply or fallback text and the first candidate's grounding. The state becomes Idle. |
| App.ChatApp.OnSendFailed | App.tsx:88-97 | One `model` message with the apology text and no grounding is appended. The state becomes Idle. |
| App.ChatApp.HandleAudioInput | App.tsx:100-101 | The state becomes Transcribing and nothing else changes. |
| App.ChatApp.OnTranscript | App.tsx:103-109 | A blank transcript returns to Idle. Otherwise the transcript is handed to `HandleUserMessage` unchanged. |
| App.ChatApp.OnTranscriptionFailed | App.tsx:110-114 | The state returns to Idle with the log unchanged. |
| App.TypedQuestionScenario | App.tsx:29-86 | After a geolocation fix and a typed question, the log is the welcome message, then the question, then the backend's text. The state is Idle and the session carries the location. |
| App.SilentRecordingScenario | App.tsx:42-109 | After a geolocation refusal and a silent recording, the log is still only the welcome message and the state is Idle. The session has no location. |
| App.NetworkErrorScenario | App.tsx:57-97 | A network error on send leaves the user's message followed by one apology, and the state is Idle. |

## Left out

- Remote calls are not modelled. `createChatSession`, `sendMessage` and `transcribeAudio` wrap a remote SDK, so their results are event parameters. The transcript parameter stands for `response.text || ""`.
- Browser APIs are outcomes only. The model represents geolocation, `getUserMedia` and `MediaRecorder` by their results: a fix or a refusal, and a granted or refused microphone. `blobToBase64` is not part of this model; its output is a parameter of `OnBlobEncoded`.
- Concurrency is left out. The event methods and `Step` accept their events in any order. The model does not check that a result event follows the start event it belongs to.
- Message ids come from `Date.now()` and are taken as parameters, so colliding ids are not excluded. Timestamps and their formatting are omitted.
- Location coordinates are carried as opaque values. Nothing is computed on them.
- The following are not modelled: auto-scroll, `alert` and `console` calls, the markup, CSS classes, the status captions, `preventDefault`, and React re-rendering.
- Characters are Unicode code points. JavaScript strings are UTF-16 code units, so `inputText.length` counts differently; the model only uses the test for a non-empty string, which is the same in both.
- Types.WebSource: the titles of `web` and `maps` are `Option<string>`, although types.ts declares them as `string`. The chunks reach the log through an unchecked cast, and the renderer handles an absent title.
