/** Decoded Anthropic requests and the Gemini parts and turns they become. */
module RequestModel {
  import opened Bytes
  import opened GeminiModel

  datatype Role = User | Assistant | System | UnknownRole

  /** A media source; for a URL, whether its scheme is accepted and the MIME type its extension suggests. */
  datatype Source =
    | NoSource
    | TextSource(data: Str)
    | UrlSource(url: Str, mime: Str, accepted: bool, inferred: Str)
    | Base64Source(mime: Str, data: Str)
    | UnknownSource

  datatype ResultBlock =
    | ResultText(text: Str)
    | ResultMedia(document: bool, source: Source)
    | ResultUnknown

  datatype ResultContent = ResultString(text: Str) | ResultBlocks(blocks: seq<ResultBlock>) | ResultNull | ResultInvalid

  datatype Flag = Absent | Flag(value: bool) | NotABoolean

  /** Canonical JSON text of an input object; null or absent; or a value that is no object. */
  datatype Input = NoInput | ObjectInput(json: Str) | InvalidInput

  datatype Carried = Carried(key: Str, signature: Str)

  /** A request content block; `Redacted` holds what its data decodes to, if it is a signature carrier. */
  datatype InBlock =
    | InText(text: Str, signature: Str)
    | InMedia(document: bool, source: Source)
    | InToolUse(id: Str, name: Str, input: Input, signature: Str)
    | InToolResult(toolUseId: Str, isError: Flag, content: ResultContent)
    | Thinking
    | Redacted(carried: Option<Carried>)
    | UnknownBlock
    | NotABlock

  datatype InContent = StringContent(text: Str) | BlockContent(blocks: seq<InBlock>) | InvalidContent

  datatype InMessage = InMessage(role: Role, content: InContent) | NotAMessage

  datatype Media = Media(inline: bool, mime: Str, data: Str)

  /** The response object of a functionResponse: its text under the key "output" or "error". */
  datatype Reply = Reply(isError: bool, text: Str)

  datatype OutPart =
    | TextPart(text: Str, signature: Str)
    | MediaPart(media: Media)
    | CallPart(id: Str, name: Str, args: Str, signature: Str)
    | ResponsePart(id: Str, name: Str, reply: Reply, attached: seq<Media>)

  datatype Turn = Turn(user: bool, parts: seq<OutPart>)

  datatype RequestError =
    | MessageNotObject
    | UnsupportedRole
    | ContentInvalid
    | BlockNotObject
    | UnsupportedBlock
    | ToolUseOutsideAssistant
    | ToolUseWithoutName
    | InputNotObject
    | UnresolvedToolResult
    | ErrorFlagNotBoolean
    | ResultContentInvalid
    | UnsupportedResultBlock
    | BadMediaSource
    | UnsupportedMime
    | ResultAfterSupplement
    | UnsupportedSupplement

  const PDF: Str := Ascii("application/pdf")
  const PNG: Str := Ascii("image/png")
  const RESULT_MIMES: seq<Str> := [PNG, Ascii("image/jpeg"), Ascii("image/webp"), PDF, Ascii("text/plain")]
  const PARAGRAPH: Str := Ascii("\n\n")
  const LINE: Str := Ascii("\n")

  function MediaOf(document: bool, source: Source): Result<OutPart, RequestError> {
    match source
    case NoSource => Err(BadMediaSource)
    case TextSource(data) =>
      if !document || data == [] then Err(BadMediaSource) else Ok(TextPart(data, []))
    case UrlSource(url, mime, accepted, inferred) =>
      var m := if mime == [] then inferred else mime;
      if url == [] || !accepted || m == [] then Err(BadMediaSource) else Ok(MediaPart(Media(false, m, url)))
    case Base64Source(mime, data) =>
      var m := if mime != [] then mime else if document then PDF else PNG;
      if data == [] then Err(BadMediaSource) else Ok(MediaPart(Media(true, m, data)))
    case UnknownSource => Err(BadMediaSource)
  }

  predicate ResultMime(m: Media) {
    m.mime in RESULT_MIMES
  }
}
