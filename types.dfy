/** The shared data declarations of the chat front-end: messages, grounding
    citations, the loading state and a location fix. Every field the source
    marks optional (`?`) is an `Option`, so an absent value is distinct from
    an empty one. */
module Types {

  datatype Option<+T> = None | Some(value: T)

  /** A review snippet quoted by a maps place answer. */
  datatype ReviewSnippet = ReviewSnippet(content: string)

  /** One place-answer source of a maps citation. */
  datatype PlaceAnswerSource = PlaceAnswerSource(reviewSnippets: Option<seq<ReviewSnippet>>)

  /** The `web` part of a grounding chunk. The title is optional because the
      chunks reach the log through an unchecked cast of the backend payload,
      and the renderer treats an absent title like an empty one. */
  datatype WebSource = WebSource(uri: string, title: Option<string>)

  /** The `maps` part of a grounding chunk. */
  datatype MapsSource = MapsSource(
    uri: string,
    title: Option<string>,
    placeAnswerSources: Option<seq<PlaceAnswerSource>>)

  /** One citation; `web` and `maps` are independent, so a chunk may carry
      both, one or neither. */
  datatype GroundingChunk = GroundingChunk(web: Option<WebSource>, maps: Option<MapsSource>)

  datatype Role = User | Model

  /** A log entry. The `timestamp` of the source is left out (clock value);
      `id` is an opaque token chosen by the caller. */
  datatype ChatMessage = ChatMessage(
    id: string,
    role: Role,
    text: string,
    isAudio: Option<bool>,
    groundingChunks: Option<seq<GroundingChunk>>)

  datatype LoadingState = Idle | Recording | Transcribing | Thinking

  /** A location fix; carried through unchanged and never computed on. */
  datatype LocationCoords = LocationCoords(latitude: real, longitude: real)

  /** The declared shapes admit every combination of optional fields: a chunk
      with both sources, with one, and with neither; and a message whose
      chunk list is absent differs from one whose list is empty. */
  lemma OptionalFieldsAreIndependent(w: WebSource, m: MapsSource)
    ensures GroundingChunk(Some(w), Some(m)).web.Some? && GroundingChunk(Some(w), Some(m)).maps.Some?
    ensures GroundingChunk(None, None).web.None? && GroundingChunk(None, None).maps.None?
    ensures ChatMessage("a", Model, "", None, None) != ChatMessage("a", Model, "", None, Some([]))
  {
  }

  /** Exactly four loading states exist. */
  lemma LoadingStateHasFourValues(s: LoadingState)
    ensures s == Idle || s == Recording || s == Transcribing || s == Thinking
    ensures |{Idle, Recording, Transcribing, Thinking}| == 4
  {
  }
}
