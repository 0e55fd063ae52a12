/** What the message renderer decides: whether a message is the user's,
    whether the Sources block appears, and which links it lists. */
module ChatMessageView {
  import opened Types

  const WebFallbackLabel: string := "Web Source"
  const MapsFallbackLabel: string := "Google Maps"

  datatype LinkKind = WebLink | MapsLink

  /** One rendered source link: its kind, its `href` and its visible label. */
  datatype SourceLink = SourceLink(kind: LinkKind, href: string, text: string)

  /** A message is the user's exactly when its role is `user`. */
  predicate IsUser(m: ChatMessage) {
    m.role == User
  }

  /** The sender-name header is drawn only above non-user messages. */
  predicate ShowsSenderName(m: ChatMessage) {
    !IsUser(m)
  }

  /** Roles split messages into the user's, drawn without a header, and the
      model's, drawn under the sender name. */
  lemma SenderNameOnlyForModel(m: ChatMessage)
    ensures IsUser(m) <==> m.role == User
    ensures ShowsSenderName(m) <==> m.role == Model
  {
  }

  /** JavaScript `title || fallback`: an absent or empty title gives way. */
  function LabelOr(title: Option<string>, fallback: string): (shown: string)
    ensures title.Some? && title.value != "" ==> shown == title.value
    ensures title.None? || title.value == "" ==> shown == fallback
  {
    if title.Some? && title.value != "" then title.value else fallback
  }

  /** The link one chunk produces: the web source when there is one, else the
      maps source, else nothing. */
  function LinkFor(chunk: GroundingChunk): (link: Option<SourceLink>)
    ensures link.None? <==> chunk.web.None? && chunk.maps.None?
    ensures chunk.web.Some? ==>
      link == Some(SourceLink(WebLink, chunk.web.value.uri, LabelOr(chunk.web.value.title, WebFallbackLabel)))
    ensures chunk.web.None? && chunk.maps.Some? ==>
      link == Some(SourceLink(MapsLink, chunk.maps.value.uri, LabelOr(chunk.maps.value.title, MapsFallbackLabel)))
    ensures link.Some? ==> link.value.text != ""
  {
    if chunk.web.Some? then
      Some(SourceLink(WebLink, chunk.web.value.uri, LabelOr(chunk.web.value.title, WebFallbackLabel)))
    else if chunk.maps.Some? then
      Some(SourceLink(MapsLink, chunk.maps.value.uri, LabelOr(chunk.maps.value.title, MapsFallbackLabel)))
    else
      None
  }

  /** The links rendered for a list of chunks, in chunk order; a chunk that
      yields no link contributes nothing. */
  function Links(chunks: seq<GroundingChunk>): (links: seq<SourceLink>)
    ensures |links| <= |chunks|
  {
    if chunks == [] then []
    else
      var rest := Links(chunks[1..]);
      match LinkFor(chunks[0])
      case Some(l) => [l] + rest
      case None => rest
  }

  /** The number of chunks that carry a web or a maps source. */
  function LinkableCount(chunks: seq<GroundingChunk>): nat {
    if chunks == [] then 0
    else (if LinkFor(chunks[0]).Some? then 1 else 0) + LinkableCount(chunks[1..])
  }

  /** The Sources block appears exactly when the chunk list is present and
      non-empty. */
  predicate ShowsSources(m: ChatMessage) {
    m.groundingChunks.Some? && |m.groundingChunks.value| > 0
  }

  /** The links shown beneath a message. */
  function RenderedLinks(m: ChatMessage): (links: seq<SourceLink>)
    ensures !ShowsSources(m) ==> links == []
    ensures ShowsSources(m) ==> links == Links(m.groundingChunks.value)
  {
    if ShowsSources(m) then Links(m.groundingChunks.value) else []
  }

  /** Mapping respects concatenation: the links of a list are the links of
      its first part followed by the links of its second part. */
  lemma {:induction false} LinksAppend(a: seq<GroundingChunk>, b: seq<GroundingChunk>)
    ensures Links(a + b) == Links(a) + Links(b)
  {
    if a == [] {
      assert a + b == b;
    } else {
      assert (a + b)[1..] == a[1..] + b;
      LinksAppend(a[1..], b);
    }
  }

  /** One link per linkable chunk, none for the others. */
  lemma {:induction false} LinksLength(chunks: seq<GroundingChunk>)
    ensures |Links(chunks)| == LinkableCount(chunks)
  {
    if chunks != [] {
      LinksLength(chunks[1..]);
    }
  }

  /** Every link comes from some chunk of the list. */
  lemma {:induction false} LinksSound(chunks: seq<GroundingChunk>, k: nat)
    requires k < |Links(chunks)|
    ensures exists i :: 0 <= i < |chunks| && LinkFor(chunks[i]) == Some(Links(chunks)[k])
  {
    var rest := Links(chunks[1..]);
    if LinkFor(chunks[0]).Some? && k == 0 {
      assert LinkFor(chunks[0]) == Some(Links(chunks)[k]);
    } else {
      var k' := if LinkFor(chunks[0]).Some? then k - 1 else k;
      assert Links(chunks)[k] == rest[k'];
      LinksSound(chunks[1..], k');
      var i :| 0 <= i < |chunks[1..]| && LinkFor(chunks[1..][i]) == Some(rest[k']);
      assert chunks[1..][i] == chunks[i + 1];
    }
  }

  /** Every chunk with a web or maps source has its link in the list, at the
      position given by the linkable chunks before it; so the links keep the
      order of their chunks. */
  lemma LinksComplete(chunks: seq<GroundingChunk>, i: nat)
    requires i < |chunks| && LinkFor(chunks[i]).Some?
    ensures LinkableCount(chunks[..i]) < |Links(chunks)|
    ensures Links(chunks)[LinkableCount(chunks[..i])] == LinkFor(chunks[i]).value
  {
    assert chunks == chunks[..i] + [chunks[i]] + chunks[i + 1..];
    LinksAppend(chunks[..i] + [chunks[i]], chunks[i + 1..]);
    LinksAppend(chunks[..i], [chunks[i]]);
    LinksLength(chunks[..i]);
    assert Links([chunks[i]]) == [LinkFor(chunks[i]).value] by {
      assert [chunks[i]][1..] == [];
    }
  }

  /** A list renders as many links as it has chunks exactly when every chunk
      carries a web or maps source; it renders none exactly when no chunk
      does. */
  lemma {:induction false} LinksAllOrNothing(chunks: seq<GroundingChunk>)
    ensures |Links(chunks)| == |chunks| <==> forall i :: 0 <= i < |chunks| ==> LinkFor(chunks[i]).Some?
    ensures Links(chunks) == [] <==> forall i :: 0 <= i < |chunks| ==> LinkFor(chunks[i]).None?
  {
    if chunks != [] {
      LinksAllOrNothing(chunks[1..]);
      assert forall i :: 1 <= i < |chunks| ==> chunks[i] == chunks[1..][i - 1];
    }
  }

  /** A message with a Sources block whose every chunk lacks both sources
      shows the heading with no links under it. */
  lemma EmptySourcesBlockIsPossible()
    ensures var m := ChatMessage("m", Model, "", None, Some([GroundingChunk(None, None)]));
      ShowsSources(m) && RenderedLinks(m) == []
  {
  }
}
