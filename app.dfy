/** The conversation orchestrator: the message log, the loading state, the
    chat session and the location fix, and the handlers that change them.
    Every `await` splits a handler into a start event and a result event;
    the remote results (a reply, a transcript, a failure) and the clock-made
    message ids are event parameters. `Step` is the transition function and
    the class `ChatApp` keeps its fields in step with it. */
module App {
  import opened Types
  import opened JsText

  const WelcomeId: string := "welcome"
  const WelcomeText: string := "أهلاً وسهلاً في صالون مسودة! \U{1F487}\U{200D}\U{2642}\U{FE0F}\U{2728}\nأنا هون عشان أجاوب على كل استفساراتك.\n\n\U{23F0} دوامنا: يومياً من 10:30 صباحاً - 9:00 مساءً.\n\U{1F6AD} ملاحظة: التدخين ممنوع داخل المحل.\n\nكيف بقدر أساعدك اليوم؟"
  /** Shown when a reply carries no text. */
  const ReplyFallbackText: string := "عفواً، ما فهمت عليك. ممكن تعيد؟"
  /** Appended when sending fails; the error itself never reaches the log. */
  const ApologyText: string := "صار في مشكلة صغيرة بالاتصال، جرب كمان مرة لو سمحت."

  /** The grounding part of one reply candidate. */
  datatype GroundingMetadata = GroundingMetadata(groundingChunks: Option<seq<GroundingChunk>>)
  datatype Candidate = Candidate(groundingMetadata: Option<GroundingMetadata>)

  /** What the chat backend returns: optional text and optional candidates. */
  datatype Reply = Reply(text: Option<string>, candidates: Option<seq<Candidate>>)

  /** A remote chat context; the location it was created with, if any, is
      fixed for its lifetime. */
  datatype ChatSession = ChatSession(location: Option<LocationCoords>)

  datatype AppState = AppState(
    messages: seq<ChatMessage>,
    loadingState: LoadingState,
    session: Option<ChatSession>,
    userLocation: Option<LocationCoords>)

  /** The discrete events of the orchestrator. */
  datatype Event =
    | GeolocationSucceeded(loc: LocationCoords)
    | GeolocationFailed
    | GeolocationUnsupported
    | UserMessageSubmitted(text: string, id: string)
    | ReplyReceived(reply: Reply, id: string)
    | SendFailed(id: string)
    | AudioSubmitted(base64Audio: string)
    | TranscriptReceived(transcript: string, id: string)
    | TranscriptionFailed

  /** The first render: the log holds only the welcome message, nothing is
      loading and there is no session yet. */
  /** The message the log starts with. */
  const WelcomeEntry: ChatMessage := ChatMessage(WelcomeId, Model, WelcomeText, None, None)

  function Initial(): (s: AppState)
    ensures |s.messages| == 1
    ensures s.messages[0].id == WelcomeId && s.messages[0].role == Model && s.messages[0].text == WelcomeText
    ensures s.messages[0].groundingChunks.None? && s.messages[0].isAudio.None?
    ensures s.loadingState == Idle && s.session.None? && s.userLocation.None?
  {
    AppState([WelcomeEntry], Idle, None, None)
  }

  function UserEntry(id: string, text: string): ChatMessage {
    ChatMessage(id, User, text, None, None)
  }

  /** `response.text || fallback`: the reply text unless it is absent or
      empty, in which case the fixed fallback. Never empty. */
  function ReplyText(r: Reply): (t: string)
    ensures r.text.Some? && r.text.value != "" ==> t == r.text.value
    ensures r.text.None? || r.text.value == "" ==> t == ReplyFallbackText
    ensures t != ""
  {
    if r.text.Some? && r.text.value != "" then r.text.value else ReplyFallbackText
  }

  /** `response.candidates?.[0]?.groundingMetadata?.groundingChunks`: read from
      the first candidate only, absent as soon as any level is missing. */
  function ReplyChunks(r: Reply): (chunks: Option<seq<GroundingChunk>>)
    ensures chunks.Some? <==>
      r.candidates.Some? && |r.candidates.value| > 0 &&
      r.candidates.value[0].groundingMetadata.Some? &&
      r.candidates.value[0].groundingMetadata.value.groundingChunks.Some?
    ensures chunks.Some? ==> chunks == r.candidates.value[0].groundingMetadata.value.groundingChunks
  {
    match r.candidates
    case None => None
    case Some(cs) =>
      if |cs| == 0 then None
      else match cs[0].groundingMetadata
        case None => None
        case Some(md) => md.groundingChunks
  }

  function ReplyEntry(id: string, r: Reply): ChatMessage {
    ChatMessage(id, Model, ReplyText(r), None, ReplyChunks(r))
  }

  function ApologyEntry(id: string): ChatMessage {
    ChatMessage(id, Model, ApologyText, None, None)
  }

  /** `handleUserMessage` up to its `await`: nothing without a session;
      otherwise the text goes into the log unchanged and the state becomes
      Thinking. */
  function SubmitUserMessage(s: AppState, text: string, id: string): (r: AppState)
    ensures s.session.None? ==> r == s
    ensures s.session.Some? ==>
      && |r.messages| == |s.messages| + 1 && r.messages[..|s.messages|] == s.messages
      && r.messages[|s.messages|].role == User && r.messages[|s.messages|].id == id
      && r.messages[|s.messages|].text == text
      && r.loadingState == Thinking && r.session == s.session && r.userLocation == s.userLocation
  {
    if s.session.None? then s
    else s.(messages := s.messages + [UserEntry(id, text)], loadingState := Thinking)
  }

  /** One transition: the handler code between two `await`s. */
  function Step(s: AppState, e: Event): AppState
  {
    match e
    case GeolocationSucceeded(loc) =>
      s.(userLocation := Some(loc), session := Some(ChatSession(Some(loc))))
    case GeolocationFailed =>
      s.(session := Some(ChatSession(None)))
    case GeolocationUnsupported =>
      s.(session := Some(ChatSession(None)))
    case UserMessageSubmitted(text, id) =>
      SubmitUserMessage(s, text, id)
    case ReplyReceived(reply, id) =>
      s.(messages := s.messages + [ReplyEntry(id, reply)], loadingState := Idle)
    case SendFailed(id) =>
      s.(messages := s.messages + [ApologyEntry(id)], loadingState := Idle)
    case AudioSubmitted(_) =>
      s.(loadingState := Transcribing)
    case TranscriptReceived(t, id) =>
      if HasContent(t) then SubmitUserMessage(s, t, id) else s.(loadingState := Idle)
    case TranscriptionFailed =>
      s.(loadingState := Idle)
  }

  /** Whatever the event, the log is kept as a prefix and grows by at most
      one well-formed message; a state other than Recording never turns into
      Recording; an existing session is kept; only a geolocation fix changes
      the stored location. */
  lemma StepInvariants(s: AppState, e: Event)
    ensures var r := Step(s, e);
      && s.messages <= r.messages && |r.messages| <= |s.messages| + 1
      && (|r.messages| > |s.messages| ==> WellFormedEntry(r.messages[|s.messages|]))
      && (s.loadingState != Recording ==> r.loadingState != Recording)
      && (s.session.Some? ==> r.session.Some?)
      && (!e.GeolocationSucceeded? ==> r.userLocation == s.userLocation)
  {
  }

  /** The state after a sequence of events, applied in order. */
  function Run(s: AppState, events: seq<Event>): AppState
    decreases |events|
  {
    if events == [] then s else Run(Step(s, events[0]), events[1..])
  }

  lemma {:induction false} RunAppend(s: AppState, a: seq<Event>, b: seq<Event>)
    ensures Run(s, a + b) == Run(Run(s, a), b)
    decreases |a|
  {
    if a == [] {
      assert a + b == b;
    } else {
      assert (a + b)[1..] == a[1..] + b;
      RunAppend(Step(s, a[0]), a[1..], b);
    }
  }

  lemma RunTwo(s: AppState, e1: Event, e2: Event)
    ensures Run(s, [e1, e2]) == Step(Step(s, e1), e2)
  {
    var s1 := Step(s, e1);
    assert [e1, e2][1..] == [e2];
    assert Run(s, [e1, e2]) == Run(s1, [e2]);
    assert [e2][1..] == [];
    assert Run(s1, [e2]) == Run(Step(s1, e2), []);
  }

  lemma RunThree(s: AppState, e1: Event, e2: Event, e3: Event)
    ensures Run(s, [e1, e2, e3]) == Step(Step(Step(s, e1), e2), e3)
  {
    assert [e1, e2, e3][1..] == [e2, e3];
    RunTwo(Step(s, e1), e2, e3);
  }

  /** The log is append-only over any run: the old log is a prefix of the new
      one, which is longer by at most the number of events. */
  lemma {:induction false} LogOnlyGrows(s: AppState, events: seq<Event>)
    ensures s.messages <= Run(s, events).messages
    ensures |Run(s, events).messages| <= |s.messages| + |events|
    decreases |events|
  {
    if events != [] {
      StepInvariants(s, events[0]);
      LogOnlyGrows(Step(s, events[0]), events[1..]);
    }
  }

  /** No event ever sets Recording: from any state other than Recording,
      every run ends outside it. */
  lemma {:induction false} NeverRecording(s: AppState, events: seq<Event>)
    requires s.loadingState != Recording
    ensures Run(s, events).loadingState != Recording
    decreases |events|
  {
    if events != [] {
      StepInvariants(s, events[0]);
      NeverRecording(Step(s, events[0]), events[1..]);
    }
  }

  /** Once a session exists it stays. */
  lemma {:induction false} SessionPersists(s: AppState, events: seq<Event>)
    requires s.session.Some?
    ensures Run(s, events).session.Some?
    decreases |events|
  {
    if events != [] {
      StepInvariants(s, events[0]);
      SessionPersists(Step(s, events[0]), events[1..]);
    }
  }

  /** A log entry as the handlers make it: never marked as audio; a user
      entry carries no grounding; a model entry's text is never empty. */
  predicate WellFormedEntry(m: ChatMessage) {
    && m.isAudio.None?
    && (m.role == User ==> m.groundingChunks.None?)
    && (m.role == Model ==> m.text != "")
  }

  predicate WellFormedLog(messages: seq<ChatMessage>) {
    forall i :: 0 <= i < |messages| ==> WellFormedEntry(messages[i])
  }

  /** Every run keeps a well-formed log well formed. */
  lemma {:induction false} WellFormedLogPreserved(s: AppState, events: seq<Event>)
    requires WellFormedLog(s.messages)
    ensures WellFormedLog(Run(s, events).messages)
    decreases |events|
  {
    if events != [] {
      var next := Step(s, events[0]);
      StepInvariants(s, events[0]);
      forall i | 0 <= i < |next.messages| ensures WellFormedEntry(next.messages[i]) {
        if i < |s.messages| {
          assert next.messages[i] == s.messages[i];
        }
      }
      WellFormedLogPreserved(next, events[1..]);
    }
  }

  /** Every log reachable from the first render is well formed. */
  lemma ReachableLogsWellFormed(events: seq<Event>)
    ensures WellFormedLog(Run(Initial(), events).messages)
  {
    WellFormedLogPreserved(Initial(), events);
  }

  /** Without a session, a submitted message changes nothing at all. */
  lemma NoSessionIgnoresSubmission(s: AppState, text: string, id: string)
    requires s.session.None?
    ensures Step(s, UserMessageSubmitted(text, id)) == s
  {
  }

  /** A typed exchange with a session: the user's text unchanged, then the
      reply, in that order; the state passes through Thinking back to Idle;
      the grounding comes from the reply's first candidate. */
  lemma TextExchange(s: AppState, text: string, userId: string, reply: Reply, replyId: string)
    requires s.session.Some?
    ensures Step(s, UserMessageSubmitted(text, userId)).loadingState == Thinking
    ensures var r := Run(s, [UserMessageSubmitted(text, userId), ReplyReceived(reply, replyId)]);
      && r.messages == s.messages + [UserEntry(userId, text),
                                     ReplyEntry(replyId, reply)]
      && r.loadingState == Idle && r.session == s.session && r.userLocation == s.userLocation
  {
    RunTwo(s, UserMessageSubmitted(text, userId), ReplyReceived(reply, replyId));
  }

  /** A failed send: the user's text, then the fixed apology with no
      grounding, and the state back to Idle. */
  lemma FailedExchange(s: AppState, text: string, userId: string, failId: string)
    requires s.session.Some?
    ensures var r := Run(s, [UserMessageSubmitted(text, userId), SendFailed(failId)]);
      && r.messages == s.messages + [UserEntry(userId, text),
                                     ApologyEntry(failId)]
      && r.loadingState == Idle && r.session == s.session
  {
    RunTwo(s, UserMessageSubmitted(text, userId), SendFailed(failId));
  }

  /** Audio submission moves to Transcribing and a blank transcript returns
      to Idle, with the log unchanged throughout. */
  lemma BlankTranscriptIgnored(s: AppState, base64Audio: string, transcript: string, id: string)
    requires !HasContent(transcript)
    ensures Step(s, AudioSubmitted(base64Audio)).loadingState == Transcribing
    ensures Step(s, AudioSubmitted(base64Audio)).messages == s.messages
    ensures var r := Run(s, [AudioSubmitted(base64Audio), TranscriptReceived(transcript, id)]);
      r.messages == s.messages && r.loadingState == Idle
  {
    RunTwo(s, AudioSubmitted(base64Audio), TranscriptReceived(transcript, id));
  }

  /** A failed transcription returns to Idle with the log unchanged. */
  lemma TranscriptionFailureIgnored(s: AppState, base64Audio: string)
    ensures var r := Run(s, [AudioSubmitted(base64Audio), TranscriptionFailed]);
      r.messages == s.messages && r.loadingState == Idle
  {
    RunTwo(s, AudioSubmitted(base64Audio), TranscriptionFailed);
  }

  /** A transcript with content is submitted as typed text, untrimmed. */
  lemma VoiceExchange(s: AppState, base64Audio: string, transcript: string, userId: string,
                      reply: Reply, replyId: string)
    requires s.session.Some? && HasContent(transcript)
    ensures var r := Run(s, [AudioSubmitted(base64Audio), TranscriptReceived(transcript, userId),
                             ReplyReceived(reply, replyId)]);
      && r.messages == s.messages + [UserEntry(userId, transcript),
                                     ReplyEntry(replyId, reply)]
      && r.loadingState == Idle
  {
    var s1 := Step(s, AudioSubmitted(base64Audio));
    assert s1 == s.(loadingState := Transcribing);
    var s2 := Step(s1, TranscriptReceived(transcript, userId));
    assert s2 == SubmitUserMessage(s1, transcript, userId);
    assert s2.messages == s.messages + [UserEntry(userId, transcript)];
    RunThree(s, AudioSubmitted(base64Audio), TranscriptReceived(transcript, userId), ReplyReceived(reply, replyId));
  }

  /** A transcript with content that arrives while there is no session leaves
      the state stuck at Transcribing and the log unchanged. */
  lemma TranscriptWithoutSessionIsStuck(s: AppState, base64Audio: string, transcript: string, id: string)
    requires s.session.None? && HasContent(transcript)
    ensures var r := Run(s, [AudioSubmitted(base64Audio), TranscriptReceived(transcript, id)]);
      r.messages == s.messages && r.loadingState == Transcribing
  {
    RunTwo(s, AudioSubmitted(base64Audio), TranscriptReceived(transcript, id));
  }

  /** A completed typed exchange: the text, its reply, and the ids given to
      the two messages. */
  datatype Exchange = Exchange(text: string, userId: string, reply: Reply, replyId: string)

  function ExchangeEvents(xs: seq<Exchange>): seq<Event> {
    if xs == [] then []
    else [UserMessageSubmitted(xs[0].text, xs[0].userId), ReplyReceived(xs[0].reply, xs[0].replyId)]
         + ExchangeEvents(xs[1..])
  }

  function ExchangeMessages(xs: seq<Exchange>): (messages: seq<ChatMessage>)
    ensures |messages| == 2 * |xs|
  {
    if xs == [] then []
    else [UserEntry(xs[0].userId, xs[0].text), ReplyEntry(xs[0].replyId, xs[0].reply)]
         + ExchangeMessages(xs[1..])
  }

  /** One completed exchange as a single state change. */
  lemma OneExchange(s: AppState, x: Exchange)
    requires s.session.Some?
    ensures Run(s, ExchangeEvents([x])) ==
      s.(messages := s.messages + ExchangeMessages([x]), loadingState := Idle)
  {
    assert ExchangeEvents([x]) == [UserMessageSubmitted(x.text, x.userId), ReplyReceived(x.reply, x.replyId)];
    assert ExchangeMessages([x]) == [UserEntry(x.userId, x.text), ReplyEntry(x.replyId, x.reply)];
    TextExchange(s, x.text, x.userId, x.reply, x.replyId);
  }

  /** With a session, every completed exchange adds exactly two messages,
      the user's and then the reply, in the order of the exchanges. */
  lemma {:induction false} ExchangesAddTwoEach(s: AppState, xs: seq<Exchange>)
    requires s.session.Some?
    ensures Run(s, ExchangeEvents(xs)).messages == s.messages + ExchangeMessages(xs)
    ensures |Run(s, ExchangeEvents(xs)).messages| == |s.messages| + 2 * |xs|
    decreases |xs|
  {
    if xs != [] {
      var rest := xs[1..];
      assert ExchangeEvents(xs) == ExchangeEvents([xs[0]]) + ExchangeEvents(rest);
      assert ExchangeMessages(xs) == ExchangeMessages([xs[0]]) + ExchangeMessages(rest);
      RunAppend(s, ExchangeEvents([xs[0]]), ExchangeEvents(rest));
      OneExchange(s, xs[0]);
      ExchangesAddTwoEach(Run(s, ExchangeEvents([xs[0]])), rest);
    }
  }

  /** After one or more completed exchanges the state is Idle again and the
      session is the one the exchanges started with. */
  lemma {:induction false} ExchangesEndIdle(s: AppState, xs: seq<Exchange>)
    requires s.session.Some? && xs != []
    ensures Run(s, ExchangeEvents(xs)).loadingState == Idle
    ensures Run(s, ExchangeEvents(xs)).session == s.session
    decreases |xs|
  {
    var rest := xs[1..];
    assert ExchangeEvents(xs) == ExchangeEvents([xs[0]]) + ExchangeEvents(rest);
    RunAppend(s, ExchangeEvents([xs[0]]), ExchangeEvents(rest));
    OneExchange(s, xs[0]);
    if rest != [] {
      ExchangesEndIdle(Run(s, ExchangeEvents([xs[0]])), rest);
    } else {
      assert ExchangeEvents(rest) == [];
    }
  }

  /** The orchestrator's state, updated in place by its handlers. */
  class ChatApp {
    var messages: seq<ChatMessage>
    var loadingState: LoadingState
    var chatSession: Option<ChatSession>
    var userLocation: Option<LocationCoords>

    function State(): AppState
      reads this
    {
      AppState(messages, loadingState, chatSession, userLocation)
    }

    /** The first render. */
    constructor ()
      ensures State() == Initial()
      ensures messages == [WelcomeEntry]
      ensures loadingState == Idle && chatSession.None? && userLocation.None?
    {
      messages := [WelcomeEntry];
      loadingState := Idle;
      chatSession := None;
      userLocation := None;
    }

    /** `initChat`, geolocation granted: the fix is stored and the session is
        created with it. */
    method OnGeolocationSuccess(loc: LocationCoords)
      modifies this
      ensures State() == Step(old(State()), GeolocationSucceeded(loc))
      ensures userLocation == Some(loc) && chatSession == Some(ChatSession(Some(loc)))
      ensures messages == old(messages) && loadingState == old(loadingState)
    {
      userLocation := Some(loc);
      chatSession := Some(ChatSession(Some(loc)));
    }

    /** `initChat`, geolocation refused or failed: a session without location. */
    method OnGeolocationError()
      modifies this
      ensures State() == Step(old(State()), GeolocationFailed)
      ensures chatSession == Some(ChatSession(None))
      ensures messages == old(messages) && loadingState == old(loadingState) && userLocation == old(userLocation)
    {
      chatSession := Some(ChatSession(None));
    }

    /** `initChat` in a browser without geolocation: a session without location. */
    method InitWithoutGeolocation()
      modifies this
      ensures State() == Step(old(State()), GeolocationUnsupported)
      ensures chatSession == Some(ChatSession(None))
      ensures messages == old(messages) && loadingState == old(loadingState) && userLocation == old(userLocation)
    {
      chatSession := Some(ChatSession(None));
    }

    /** `handleUserMessage` up to `sendMessage`: returns at once without a
        session; otherwise appends the user's text unchanged and moves to
        Thinking. */
    method HandleUserMessage(text: string, id: string)
      modifies this
      ensures State() == Step(old(State()), UserMessageSubmitted(text, id))
      ensures old(chatSession).None? ==> messages == old(messages) && loadingState == old(loadingState)
      ensures old(chatSession).Some? ==>
        messages == old(messages) + [UserEntry(id, text)] && loadingState == Thinking
      ensures chatSession == old(chatSession) && userLocation == old(userLocation)
    {
      if chatSession.None? {
        return;
      }
      messages := messages + [UserEntry(id, text)];
      loadingState := Thinking;
    }

    /** `sendMessage` resolved: the reply (or the fallback text) with the first
        candidate's grounding is appended and the state returns to Idle. */
    method OnReply(reply: Reply, id: string)
      modifies this
      ensures State() == Step(old(State()), ReplyReceived(reply, id))
      ensures messages == old(messages) + [ReplyEntry(id, reply)]
      ensures loadingState == Idle
      ensures chatSession == old(chatSession) && userLocation == old(userLocation)
    {
      messages := messages + [ReplyEntry(id, reply)];
      loadingState := Idle;
    }

    /** `sendMessage` rejected: the fixed apology is appended and the state
        returns to Idle. */
    method OnSendFailed(id: string)
      modifies this
      ensures State() == Step(old(State()), SendFailed(id))
      ensures messages == old(messages) + [ApologyEntry(id)]
      ensures loadingState == Idle
      ensures chatSession == old(chatSession) && userLocation == old(userLocation)
    {
      messages := messages + [ApologyEntry(id)];
      loadingState := Idle;
    }

    /** `handleAudioInput` up to `transcribeAudio`. */
    method HandleAudioInput(base64Audio: string)
      modifies this
      ensures State() == Step(old(State()), AudioSubmitted(base64Audio))
      ensures loadingState == Transcribing
      ensures messages == old(messages) && chatSession == old(chatSession) && userLocation == old(userLocation)
    {
      loadingState := Transcribing;
    }

    /** `transcribeAudio` resolved: a transcript with content is handed to
        `HandleUserMessage` untrimmed; a blank one returns to Idle. */
    method OnTranscript(transcript: string, id: string)
      modifies this
      ensures State() == Step(old(State()), TranscriptReceived(transcript, id))
      ensures !HasContent(transcript) ==> messages == old(messages) && loadingState == Idle
      ensures HasContent(transcript) && old(chatSession).None? ==>
        messages == old(messages) && loadingState == old(loadingState)
      ensures HasContent(transcript) && old(chatSession).Some? ==>
        messages == old(messages) + [UserEntry(id, transcript)] && loadingState == Thinking
      ensures chatSession == old(chatSession) && userLocation == old(userLocation)
    {
      if HasContent(transcript) {
        HandleUserMessage(transcript, id);
      } else {
        loadingState := Idle;
      }
    }

    /** `transcribeAudio` rejected: back to Idle, log unchanged. */
    method OnTranscriptionFailed()
      modifies this
      ensures State() == Step(old(State()), TranscriptionFailed)
      ensures loadingState == Idle
      ensures messages == old(messages) && chatSession == old(chatSession) && userLocation == old(userLocation)
    {
      loadingState := Idle;
    }
  }

  /** A typed question after geolocation was granted: the log ends with the
      question and the backend's text, the state is back to Idle and the
      session carries the location. */
  method TypedQuestionScenario(loc: LocationCoords, answer: string) returns (log: seq<ChatMessage>, state: LoadingState, session: Option<ChatSession>)
    requires answer != ""
    ensures |log| == 3 && log[0].id == WelcomeId
    ensures log[1] == UserEntry("1", "What are your hours?")
    ensures log[2].role == Model && log[2].text == answer && log[2].groundingChunks.None?
    ensures state == Idle && session == Some(ChatSession(Some(loc)))
  {
    var app := new ChatApp();
    app.OnGeolocationSuccess(loc);
    app.HandleUserMessage("What are your hours?", "1");
    app.OnReply(Reply(Some(answer), Some([])), "2");
    log, state, session := app.messages, app.loadingState, app.chatSession;
  }

  /** A silent recording after geolocation was refused: the transcript is
      empty, the state is back to Idle and the log still holds only the
      welcome message; the session has no location. */
  method SilentRecordingScenario(base64Audio: string) returns (log: seq<ChatMessage>, state: LoadingState, session: Option<ChatSession>)
    ensures log == Initial().messages && state == Idle
    ensures session == Some(ChatSession(None))
  {
    var app := new ChatApp();
    app.OnGeolocationError();
    app.HandleAudioInput(base64Audio);
    app.OnTranscript("", "1");
    log, state, session := app.messages, app.loadingState, app.chatSession;
  }

  /** A network error on send: one apology message after the user's, with
      no grounding, and the state back to Idle. */
  method NetworkErrorScenario(text: string) returns (log: seq<ChatMessage>, state: LoadingState)
    ensures |log| == 3 && log[1].role == User && log[1].text == text
    ensures log[2] == ApologyEntry("2")
    ensures state == Idle
  {
    var app := new ChatApp();
    app.InitWithoutGeolocation();
    app.HandleUserMessage(text, "1");
    app.OnSendFailed("2");
    log, state := app.messages, app.loadingState;
  }
}
