/** The input bar: a text buffer with its send guard, a two-state recording
    toggle over a microphone recorder, the chunk buffer handed on when the
    recording stops, and the enable/disable conditions of its controls. */
module InputArea {
  import opened Types
  import opened JsText

  /** One `dataavailable` payload: opaque audio bytes. */
  type AudioChunk = seq<bv8>

  const AudioMimeType: string := "audio/wav"

  /** `new Blob(chunks, { type })`: the parts in order and the media type. */
  datatype AudioBlob = AudioBlob(parts: seq<AudioChunk>, mimeType: string)

  /** The lifecycle state of the browser's media recorder. */
  datatype RecorderState = Active | Inactive

  /** A call this component makes outside itself, in the order made:
      `onSendMessage(text)`, `onSendAudio(base64)`, or stopping the
      microphone stream's tracks. */
  datatype Effect = SentMessage(text: string) | SentAudio(base64: string) | TracksStopped

  /** Work is in progress: the state is neither Idle nor Recording. */
  predicate IsLoading(state: LoadingState) {
    state != Idle && state != Recording
  }

  /** The textarea is disabled while recording or loading. */
  predicate TextareaDisabled(state: LoadingState) {
    state == Recording || IsLoading(state)
  }

  /** The record button is disabled while loading or while there is typed text. */
  predicate RecordButtonDisabled(state: LoadingState, inputText: string) {
    IsLoading(state) || |inputText| > 0
  }

  /** The send button is rendered only when there is typed text... */
  predicate SendButtonShown(inputText: string) {
    |inputText| > 0
  }

  /** ...and is disabled while loading. */
  predicate SendButtonDisabled(state: LoadingState) {
    IsLoading(state)
  }

  /** Whether `handleSend` goes ahead: the trimmed text is non-empty and the
      state is Idle. */
  predicate SendAccepted(inputText: string, state: LoadingState) {
    HasContent(inputText) && state == Idle
  }

  /** Enter without Shift submits; every other key, and Shift+Enter, does not. */
  predicate SubmitsOnKey(key: string, shiftKey: bool) {
    key == "Enter" && !shiftKey
  }

  /** Loading means exactly Transcribing or Thinking; the textarea is enabled
      exactly in Idle. */
  lemma LoadingStates(state: LoadingState)
    ensures IsLoading(state) <==> state == Transcribing || state == Thinking
    ensures !TextareaDisabled(state) <==> state == Idle
  {
  }

  /** Typed text and the record button exclude each other: with text present
      the record button is disabled, and a clickable record button means the
      buffer is empty and no send button is shown. A clickable send button
      needs typed text and a state that is not loading. */
  lemma ControlsExcludeEachOther(state: LoadingState, inputText: string)
    ensures |inputText| > 0 ==> RecordButtonDisabled(state, inputText)
    ensures !RecordButtonDisabled(state, inputText) ==> !SendButtonShown(inputText)
    ensures SendButtonShown(inputText) && !SendButtonDisabled(state) ==>
      |inputText| > 0 && (state == Idle || state == Recording)
  {
  }

  /** A send goes ahead exactly when `inputText.trim()` is non-empty and the
      state is Idle; so it never overlaps a transcription or a pending reply,
      and the text it forwards has a character that is not white space. */
  lemma AcceptedSendHasContent(inputText: string, state: LoadingState)
    ensures SendAccepted(inputText, state) <==> Trim(inputText) != "" && state == Idle
    ensures SendAccepted(inputText, state) ==>
      !IsLoading(state) && !TextareaDisabled(state) &&
      exists i :: 0 <= i < |inputText| && !IsWhiteSpace(inputText[i])
  {
    TrimEmptyIffBlank(inputText);
  }

  /** The input bar's own state. `recorder` is `mediaRecorderRef.current`;
      `tracksStopped` says whether the stream acquired by the last successful
      start has been released; `outbox` records the calls made outward. */
  class InputController {
    var inputText: string
    var isRecording: bool
    var recorder: Option<RecorderState>
    var audioChunks: seq<AudioChunk>
    var tracksStopped: bool
    var outbox: seq<Effect>

    /** A recorder is running exactly while `isRecording` is set. */
    predicate Valid()
      reads this
    {
      isRecording <==> recorder == Some(Active)
    }

    /** The initial render: empty text, not recording, no recorder, no chunks. */
    constructor ()
      ensures Valid()
      ensures inputText == "" && !isRecording && recorder == None
      ensures audioChunks == [] && tracksStopped && outbox == []
    {
      inputText := "";
      isRecording := false;
      recorder := None;
      audioChunks := [];
      tracksStopped := true;
      outbox := [];
    }

    /** `onChange` of the textarea; a disabled textarea takes no input. */
    method EditText(value: string, state: LoadingState)
      requires Valid()
      modifies this
      ensures Valid()
      ensures inputText == (if TextareaDisabled(state) then old(inputText) else value)
      ensures isRecording == old(isRecording) && recorder == old(recorder)
      ensures audioChunks == old(audioChunks) && tracksStopped == old(tracksStopped)
      ensures outbox == old(outbox)
    {
      if !TextareaDisabled(state) {
        inputText := value;
      }
    }

    /** `handleSend`: ignored unless the trimmed text is non-empty and the
        state is Idle; otherwise forwards the untrimmed text once and clears
        the buffer. */
    method HandleSend(state: LoadingState)
      requires Valid()
      modifies this
      ensures Valid()
      ensures SendAccepted(old(inputText), state) ==>
        outbox == old(outbox) + [SentMessage(old(inputText))] && inputText == ""
      ensures !SendAccepted(old(inputText), state) ==>
        outbox == old(outbox) && inputText == old(inputText)
      ensures isRecording == old(isRecording) && recorder == old(recorder)
      ensures audioChunks == old(audioChunks) && tracksStopped == old(tracksStopped)
    {
      if !HasContent(inputText) || state != Idle {
        return;
      }
      outbox := outbox + [SentMessage(inputText)];
      inputText := "";
    }

    /** `handleKeyDown` on the textarea: Enter without Shift sends. A disabled
        textarea receives no key events. */
    method HandleKeyDown(key: string, shiftKey: bool, state: LoadingState)
      requires Valid()
      modifies this
      ensures Valid()
      ensures SubmitsOnKey(key, shiftKey) && !TextareaDisabled(state) && SendAccepted(old(inputText), state) ==>
        outbox == old(outbox) + [SentMessage(old(inputText))] && inputText == ""
      ensures !(SubmitsOnKey(key, shiftKey) && !TextareaDisabled(state) && SendAccepted(old(inputText), state)) ==>
        outbox == old(outbox) && inputText == old(inputText)
      ensures isRecording == old(isRecording) && recorder == old(recorder)
      ensures audioChunks == old(audioChunks) && tracksStopped == old(tracksStopped)
    {
      if !TextareaDisabled(state) && SubmitsOnKey(key, shiftKey) {
        HandleSend(state);
      }
    }

    /** `startRecording`, after the microphone request settles. When it is
        granted, a fresh recorder is started on an emptied chunk buffer and
        `isRecording` becomes true; when it is refused nothing changes. */
    method StartRecording(micGranted: bool)
      requires Valid()
      modifies this
      ensures Valid()
      ensures micGranted ==>
        recorder == Some(Active) && audioChunks == [] && isRecording && !tracksStopped
      ensures !micGranted ==>
        recorder == old(recorder) && audioChunks == old(audioChunks) &&
        isRecording == old(isRecording) && tracksStopped == old(tracksStopped)
      ensures inputText == old(inputText) && outbox == old(outbox)
    {
      if !micGranted {
        return;
      }
      recorder := Some(Active);
      tracksStopped := false;
      audioChunks := [];
      isRecording := true;
    }

    /** `ondataavailable`: the chunk goes at the end of the buffer. */
    method OnDataAvailable(chunk: AudioChunk)
      requires Valid()
      modifies this
      ensures Valid()
      ensures audioChunks == old(audioChunks) + [chunk]
      ensures inputText == old(inputText) && isRecording == old(isRecording) && recorder == old(recorder)
      ensures tracksStopped == old(tracksStopped) && outbox == old(outbox)
    {
      audioChunks := audioChunks + [chunk];
    }

    /** `stopRecording`: only with a recorder and while recording; stops the
        recorder and clears `isRecording`. */
    method StopRecording()
      requires Valid()
      modifies this
      ensures Valid()
      ensures old(recorder).Some? && old(isRecording) ==> recorder == Some(Inactive) && !isRecording
      ensures !(old(recorder).Some? && old(isRecording)) ==>
        recorder == old(recorder) && isRecording == old(isRecording)
      ensures inputText == old(inputText) && audioChunks == old(audioChunks)
      ensures tracksStopped == old(tracksStopped) && outbox == old(outbox)
    {
      if recorder.Some? && isRecording {
        recorder := Some(Inactive);
        isRecording := false;
      }
    }

    /** The record button's `onClick`: stop when recording, start otherwise;
        a disabled button takes no clicks. */
    method ClickRecordButton(state: LoadingState, micGranted: bool)
      requires Valid()
      modifies this
      ensures Valid()
      ensures RecordButtonDisabled(state, old(inputText)) || (!old(isRecording) && !micGranted) ==>
        isRecording == old(isRecording) && recorder == old(recorder) &&
        audioChunks == old(audioChunks) && tracksStopped == old(tracksStopped)
      ensures !RecordButtonDisabled(state, old(inputText)) && old(isRecording) ==>
        recorder == Some(Inactive) && !isRecording &&
        audioChunks == old(audioChunks) && tracksStopped == old(tracksStopped)
      ensures !RecordButtonDisabled(state, old(inputText)) && !old(isRecording) && micGranted ==>
        recorder == Some(Active) && audioChunks == [] && isRecording && !tracksStopped
      ensures inputText == old(inputText) && outbox == old(outbox)
    {
      if RecordButtonDisabled(state, inputText) {
        return;
      }
      if isRecording {
        StopRecording();
      } else {
        StartRecording(micGranted);
      }
    }

    /** The send button's `onClick`: only when it is shown and enabled. */
    method ClickSendButton(state: LoadingState)
      requires Valid()
      modifies this
      ensures Valid()
      ensures SendButtonShown(old(inputText)) && !SendButtonDisabled(state) && SendAccepted(old(inputText), state) ==>
        outbox == old(outbox) + [SentMessage(old(inputText))] && inputText == ""
      ensures !(SendButtonShown(old(inputText)) && !SendButtonDisabled(state) && SendAccepted(old(inputText), state)) ==>
        outbox == old(outbox) && inputText == old(inputText)
      ensures isRecording == old(isRecording) && recorder == old(recorder)
      ensures audioChunks == old(audioChunks) && tracksStopped == old(tracksStopped)
    {
      if SendButtonShown(inputText) && !SendButtonDisabled(state) {
        HandleSend(state);
      }
    }

    /** `onstop`, first half: the blob is built from every buffered chunk in
        arrival order. */
    method AssembleBlob() returns (blob: AudioBlob)
      ensures blob.parts == audioChunks && blob.mimeType == AudioMimeType
    {
      blob := AudioBlob(audioChunks, AudioMimeType);
    }

    /** `onstop`, second half, after the blob is encoded: the encoding goes to
        `onSendAudio`, and only then are the stream's tracks stopped. */
    method OnBlobEncoded(base64: string)
      requires Valid()
      modifies this
      ensures Valid()
      ensures outbox == old(outbox) + [SentAudio(base64), TracksStopped]
      ensures tracksStopped
      ensures inputText == old(inputText) && isRecording == old(isRecording)
      ensures recorder == old(recorder) && audioChunks == old(audioChunks)
    {
      outbox := outbox + [SentAudio(base64)];
      outbox := outbox + [TracksStopped];
      tracksStopped := true;
    }
  }

  /** A full voice capture: start with the microphone granted, three data
      events, stop. The blob holds the three chunks in arrival order, the
      encoding is handed on before the tracks are stopped, and nothing was
      sent as text. */
  method VoiceCaptureScenario(c1: AudioChunk, c2: AudioChunk, c3: AudioChunk, base64: string)
    returns (blob: AudioBlob, sent: seq<Effect>)
    ensures blob == AudioBlob([c1, c2, c3], AudioMimeType)
    ensures sent == [SentAudio(base64), TracksStopped]
  {
    var input := new InputController();
    input.ClickRecordButton(Idle, true);
    assert input.isRecording;
    input.OnDataAvailable(c1);
    input.OnDataAvailable(c2);
    input.OnDataAvailable(c3);
    input.ClickRecordButton(Idle, true);
    assert !input.isRecording;
    blob := input.AssembleBlob();
    input.OnBlobEncoded(base64);
    sent := input.outbox;
  }

  /** A refused microphone leaves the controller not recording, with no
      recorder, so the record button's next click tries to start again. */
  method MicrophoneRefusedScenario() returns (recording: bool, hasRecorder: bool)
    ensures !recording && !hasRecorder
  {
    var input := new InputController();
    input.ClickRecordButton(Idle, false);
    recording, hasRecorder := input.isRecording, input.recorder.Some?;
  }

  /** With no reply pending the state is Idle during a recording, so the
      textarea stays enabled. Text typed then disables the record button, so
      the recording cannot be stopped from it while text is in the box, and
      the text can be sent while the recording runs. */
  method TypingWhileRecordingScenario(text: string) returns (stillRecording: bool, sent: seq<Effect>)
    requires HasContent(text)
    ensures stillRecording
    ensures sent == [SentMessage(text)]
  {
    var input := new InputController();
    input.ClickRecordButton(Idle, true);
    input.EditText(text, Idle);
    input.ClickRecordButton(Idle, true);
    stillRecording := input.isRecording;
    input.HandleKeyDown("Enter", false, Idle);
    sent := input.outbox;
  }
}
