/**
 * Multimodal message fallback: how a user message's parts are adapted to
 * the modalities a chat model accepts. The agent runner folds the URLs of
 * unsupported media into the message text; the workflow LLM node turns an
 * unsupported part into a text part holding its URL, and may replace a
 * supported part's URL by an inline base64 data URL. The HTTP fetch behind
 * the data URL is a parameter.
 */
module Multimodal {
  import opened Wrappers

  /** The modalities a model may accept. */
  datatype Modal = ModalText | ModalImage | ModalFile | ModalAudio | ModalVideo

  /** The media part types. */
  datatype MediaKind = ImageKind | FileKind | AudioKind | VideoKind

  /** A `ChatMessagePart`: text, a media URL (with its MIME type), or a part of a type neither knows. */
  datatype Part =
    | TextPart(text: string)
    | MediaPart(kind: MediaKind, url: string, mimeType: string)
    | UnknownPart(partType: string, text: string)

  /** A message; `multiContent` is `None` for a nil part list. */
  datatype Message = Message(role: string, content: string, multiContent: Option<seq<Part>>)

  function ModalOf(k: MediaKind): (m: Modal)
    ensures m != ModalText
  {
    match k
    case ImageKind => ModalImage
    case FileKind => ModalFile
    case AudioKind => ModalAudio
    case VideoKind => ModalVideo
  }

  /** Whether the part is a media part whose modality the model does not accept. */
  predicate Unsupported(p: Part, modals: set<Modal>)
  {
    p.MediaPart? && ModalOf(p.kind) !in modals
  }

  predicate SupportedMedia(p: Part, modals: set<Modal>)
  {
    p.MediaPart? && ModalOf(p.kind) in modals
  }

  // ---------------------------------------------------------------------
  // concatContentString
  // ---------------------------------------------------------------------

  /** The note's lead for each media kind. */
  function NoteLead(k: MediaKind): string
  {
    match k
    case ImageKind => "  this is a image:"
    case FileKind => "  this is a file:"
    case AudioKind => "  this is a audio:"
    case VideoKind => "  this is a video:"
  }

  /** What one part adds to the text: a note with the URL for a media part, nothing otherwise. */
  function Note(p: Part): (n: string)
    ensures !p.MediaPart? <==> n == ""
  {
    if p.MediaPart? then NoteLead(p.kind) + p.url else ""
  }

  /** The notes of the parts, in order. */
  function Notes(parts: seq<Part>): string
  {
    if |parts| == 0 then "" else Note(parts[0]) + Notes(parts[1..])
  }

  /** `concatContentString`: the text with a note appended per media part, part by part. */
  function ConcatContentString(text: string, parts: seq<Part>): string
    decreases |parts|
  {
    if |parts| == 0 then text
    else ConcatContentString(text + Note(parts[0]), parts[1..])
  }

  /** The concatenation is the text followed by every part's note in input order. */
  lemma {:induction false} ConcatIsTextThenNotes(text: string, parts: seq<Part>)
    ensures ConcatContentString(text, parts) == text + Notes(parts)
    decreases |parts|
  {
    if |parts| > 0 {
      var note, rest := Note(parts[0]), Notes(parts[1..]);
      assert Notes(parts) == note + rest;
      assert ConcatContentString(text, parts) == ConcatContentString(text + note, parts[1..]);
      ConcatIsTextThenNotes(text + note, parts[1..]);
      assert (text + note) + rest == text + (note + rest);
    }
  }

  /** The notes of two lists are the notes of the first followed by those of the second. */
  lemma {:induction false} NotesAppend(xs: seq<Part>, ys: seq<Part>)
    ensures Notes(xs + ys) == Notes(xs) + Notes(ys)
    decreases |xs|
  {
    if |xs| == 0 {
      assert xs + ys == ys;
    } else {
      assert (xs + ys)[1..] == xs[1..] + ys;
      NotesAppend(xs[1..], ys);
    }
  }

  /** Without media parts (an empty list, or only text and unknown parts) the text is unchanged. */
  lemma {:induction false} ConcatWithoutMedia(text: string, parts: seq<Part>)
    requires forall i :: 0 <= i < |parts| ==> !parts[i].MediaPart?
    ensures ConcatContentString(text, parts) == text
    decreases |parts|
  {
    if |parts| > 0 {
      assert Note(parts[0]) == "";
      assert text + "" == text;
      ConcatWithoutMedia(text, parts[1..]);
    }
  }

  /** The four-media table case, for any text and URLs: one note per part, in input order. */
  lemma ConcatAllKinds(text: string, image: string, file: string, audio: string, video: string)
    ensures ConcatContentString(text, [
      MediaPart(ImageKind, image, ""), MediaPart(FileKind, file, ""),
      MediaPart(AudioKind, audio, ""), MediaPart(VideoKind, video, "")])
      == text + ("  this is a image:" + image) + ("  this is a file:" + file)
         + ("  this is a audio:" + audio) + ("  this is a video:" + video)
  {
    var parts := [
      MediaPart(ImageKind, image, ""), MediaPart(FileKind, file, ""),
      MediaPart(AudioKind, audio, ""), MediaPart(VideoKind, video, "")];
    var t1 := text + Note(parts[0]);
    var t2 := t1 + Note(parts[1]);
    var t3 := t2 + Note(parts[2]);
    var t4 := t3 + Note(parts[3]);
    assert parts[1..][1..] == parts[2..] && parts[2..][1..] == parts[3..] && parts[3..][1..] == [];
    assert ConcatContentString(t3, parts[3..]) == ConcatContentString(t4, []);
    assert ConcatContentString(t2, parts[2..]) == ConcatContentString(t3, parts[3..]);
    assert ConcatContentString(t1, parts[1..]) == ConcatContentString(t2, parts[2..]);
  }

  // ---------------------------------------------------------------------
  // preHandlerInput
  // ---------------------------------------------------------------------

  /** The text of the message's text parts, in order. */
  function TextContent(parts: seq<Part>): string
  {
    if |parts| == 0 then ""
    else (if parts[0].TextPart? then parts[0].text else "") + TextContent(parts[1..])
  }

  /** The unsupported media parts, in order. */
  function UnsupportedParts(parts: seq<Part>, modals: set<Modal>): (r: seq<Part>)
    ensures forall p :: p in r <==> p in parts && Unsupported(p, modals)
  {
    if |parts| == 0 then []
    else (if Unsupported(parts[0], modals) then [parts[0]] else []) + UnsupportedParts(parts[1..], modals)
  }

  /** The parts that stay in the part list: supported media and unknown parts, in order. */
  function KeptParts(parts: seq<Part>, modals: set<Modal>): (r: seq<Part>)
    ensures forall p :: p in r <==> p in parts && !p.TextPart? && !Unsupported(p, modals)
  {
    if |parts| == 0 then []
    else (if !parts[0].TextPart? && !Unsupported(parts[0], modals) then [parts[0]] else []) + KeptParts(parts[1..], modals)
  }

  /** Whether some media part is supported. */
  function AnySupported(parts: seq<Part>, modals: set<Modal>): (r: bool)
    ensures r <==> exists p :: p in parts && SupportedMedia(p, modals)
  {
    if |parts| == 0 then false
    else SupportedMedia(parts[0], modals) || AnySupported(parts[1..], modals)
  }

  /**
   * `preHandlerInput` for a model accepting `modals`. When some media are
   * supported, the unsupported ones leave the part list and their notes are
   * folded into one trailing text part; when none are, the text and the notes
   * become the content and only the unknown parts stay in the list.
   */
  function PreHandlerInput(msg: Message, modals: set<Modal>): (r: Message)
    ensures r.role == msg.role
    ensures msg.multiContent.None? || msg.multiContent == Some([]) ==> r == msg
    ensures (msg.multiContent.Some? && AnySupported(msg.multiContent.value, modals)
             && UnsupportedParts(msg.multiContent.value, modals) == []) ==> r == msg
  {
    match msg.multiContent
    case None => msg
    case Some(parts) =>
      if |parts| == 0 then msg
      else
        var unsupported := UnsupportedParts(parts, modals);
        var text := ConcatContentString(TextContent(parts), unsupported);
        if AnySupported(parts, modals) then
          if |unsupported| == 0 then msg
          else msg.(multiContent := Some(KeptParts(parts, modals) + [TextPart(text)]))
        else
          var kept := KeptParts(parts, modals);
          msg.(content := text, multiContent := if |kept| == 0 then None else Some(kept))
  }

  /** Whatever the message, the adapted one holds no unsupported media part. */
  lemma NoUnsupportedAfter(msg: Message, modals: set<Modal>, p: Part)
    requires PreHandlerInput(msg, modals).multiContent.Some?
    requires p in PreHandlerInput(msg, modals).multiContent.value
    ensures !Unsupported(p, modals)
  {
  }

  /**
   * Nothing the model cannot take is lost: the unsupported parts' notes
   * follow the message's text, in the trailing text part when some media
   * are supported and in the content otherwise.
   */
  lemma FallbackText(msg: Message, modals: set<Modal>)
    requires msg.multiContent.Some? && UnsupportedParts(msg.multiContent.value, modals) != []
    ensures var parts := msg.multiContent.value;
      var folded := TextContent(parts) + Notes(UnsupportedParts(parts, modals));
      var r := PreHandlerInput(msg, modals);
      if AnySupported(parts, modals)
      then r.content == msg.content && r.multiContent == Some(KeptParts(parts, modals) + [TextPart(folded)])
      else r.content == folded
           && r.multiContent == (if KeptParts(parts, modals) == [] then None else Some(KeptParts(parts, modals)))
  {
    var parts := msg.multiContent.value;
    ConcatIsTextThenNotes(TextContent(parts), UnsupportedParts(parts, modals));
  }

  /** The mixed table case: a supported image stays, the file's note joins the text part. */
  lemma PreHandlerMixedCase(role: string, image: string, file: string, text: string)
    ensures PreHandlerInput(
      Message(role, "", Some([MediaPart(ImageKind, image, ""), MediaPart(FileKind, file, ""), TextPart(text)])),
      {ModalText, ModalImage})
      == Message(role, "", Some([MediaPart(ImageKind, image, ""), TextPart(text + ("  this is a file:" + file))]))
  {
    var modals := {ModalText, ModalImage};
    var img, doc, txt := MediaPart(ImageKind, image, ""), MediaPart(FileKind, file, ""), TextPart(text);
    var parts := [img, doc, txt];
    assert parts[1..] == [doc, txt] && parts[1..][1..] == [txt] && [txt][1..] == [];
    assert TextContent([txt]) == text + TextContent([]);
    assert TextContent([doc, txt]) == "" + TextContent([txt]);
    assert TextContent(parts) == "" + TextContent([doc, txt]);
    assert UnsupportedParts([txt], modals) == [] + UnsupportedParts([], modals);
    assert UnsupportedParts([doc, txt], modals) == [doc] + UnsupportedParts([txt], modals);
    assert UnsupportedParts(parts, modals) == [] + UnsupportedParts([doc, txt], modals);
    assert KeptParts([txt], modals) == [] + KeptParts([], modals);
    assert KeptParts([doc, txt], modals) == [] + KeptParts([txt], modals);
    assert KeptParts(parts, modals) == [img] + KeptParts([doc, txt], modals);
    assert AnySupported(parts, modals);
    assert ConcatContentString(text, [doc]) == ConcatContentString(text + Note(doc), []);
    var msg := Message(role, "", Some(parts));
    assert TextContent(parts) == text;
    assert UnsupportedParts(parts, modals) == [doc];
    var folded := ConcatContentString(TextContent(parts), UnsupportedParts(parts, modals));
    assert folded == text + Note(doc);
    assert Note(doc) == "  this is a file:" + file;
    assert KeptParts(parts, modals) + [TextPart(folded)] == [img, TextPart(folded)];
    assert PreHandlerInput(msg, modals) == msg.(multiContent := Some(KeptParts(parts, modals) + [TextPart(folded)]));
  }

  /** The unknown-type table case: no media at all, so the text becomes the content and the unknown part stays. */
  lemma PreHandlerUnknownCase(role: string, partType: string, unknown: string, text: string)
    ensures PreHandlerInput(Message(role, "", Some([UnknownPart(partType, unknown), TextPart(text)])), {ModalText})
      == Message(role, text, Some([UnknownPart(partType, unknown)]))
  {
    var modals := {ModalText};
    var u, t := UnknownPart(partType, unknown), TextPart(text);
    var parts := [u, t];
    assert parts[1..] == [t] && [t][1..] == [];
    assert TextContent([t]) == text + TextContent([]);
    assert TextContent(parts) == "" + TextContent([t]);
    assert UnsupportedParts([t], modals) == [] + UnsupportedParts([], modals);
    assert UnsupportedParts(parts, modals) == [] + UnsupportedParts([t], modals);
    assert KeptParts([t], modals) == [] + KeptParts([], modals);
    assert KeptParts(parts, modals) == [u] + KeptParts([t], modals);
    assert !AnySupported(parts, modals);
    var msg := Message(role, "", Some(parts));
    var kept := KeptParts(parts, modals);
    assert kept == [u];
    var txt := ConcatContentString(TextContent(parts), UnsupportedParts(parts, modals));
    assert txt == text;
    assert PreHandlerInput(msg, modals) == msg.(content := txt, multiContent := Some(kept));
  }

  // ---------------------------------------------------------------------
  // transformMessagePart and URLToBase64
  // ---------------------------------------------------------------------

  /** `FileData`: the data URL and the MIME type it carries. */
  datatype FileData = FileData(base64Url: string, mimeType: string)

  /** The MIME type used when neither the response nor the extension gives one. */
  const DefaultMimeType := "application/octet-stream"

  /**
   * `URLToBase64` after the request: `status` and `contentType` come from the
   * HTTP response, `extMimeType` is the type registered for the URL's
   * extension (empty when none), `b64` the base64 text of the body.
   */
  function URLToBase64(status: int, contentType: string, extMimeType: string, b64: string): (r: Result<FileData, string>)
    ensures r.Ok? <==> status == 200
    ensures r.Ok? ==> r.value.mimeType != "" && r.value.base64Url == "data:" + r.value.mimeType + ";base64," + b64
    ensures r.Ok? && contentType != "" ==> r.value.mimeType == contentType
    ensures r.Ok? && contentType == "" && extMimeType != "" ==> r.value.mimeType == extMimeType
    ensures r.Ok? && contentType == "" && extMimeType == "" ==> r.value.mimeType == DefaultMimeType
  {
    if status != 200 then Err("response status code error")
    else
      var mimeType := if contentType != "" then contentType else if extMimeType != "" then extMimeType else DefaultMimeType;
      Ok(FileData("data:" + mimeType + ";base64," + b64, mimeType))
  }

  /**
   * `transformMessagePart`: an unsupported media part becomes a text part
   * holding its URL; a supported one is inlined through `fetch` when base64
   * transfer is on; text and unknown parts pass through.
   */
  function TransformMessagePart(part: Part, supported: set<Modal>, enableTransferBase64: bool,
                                fetch: string -> Result<FileData, string>): (r: Part)
    ensures !part.MediaPart? ==> r == part
    ensures Unsupported(part, supported) ==> r == TextPart(part.url)
    ensures SupportedMedia(part, supported) && !enableTransferBase64 ==> r == part
    ensures SupportedMedia(part, supported) && enableTransferBase64 && fetch(part.url).Ok? ==>
      r == MediaPart(part.kind, fetch(part.url).value.base64Url, fetch(part.url).value.mimeType)
    ensures SupportedMedia(part, supported) && enableTransferBase64 && fetch(part.url).Err? ==> r == part
  {
    match part
    case TextPart(_) => part
    case UnknownPart(_, _) => part
    case MediaPart(kind, url, _) =>
      if ModalOf(kind) !in supported then TextPart(url)
      else if !enableTransferBase64 then part
      else match fetch(url)
        case Err(_) => part
        case Ok(fd) => MediaPart(kind, fd.base64Url, fd.mimeType)
  }

  /** After the transform, every media part is of a supported modality and the kind is kept. */
  lemma TransformedIsSupported(part: Part, supported: set<Modal>, enableTransferBase64: bool, fetch: string -> Result<FileData, string>)
    ensures var r := TransformMessagePart(part, supported, enableTransferBase64, fetch);
      !Unsupported(r, supported) && (r.MediaPart? ==> part.MediaPart? && r.kind == part.kind)
  {
  }

  /** With base64 transfer, a fetched part's URL is a data URL whose MIME type is the part's. */
  lemma InlinedPartIsDataURL(part: Part, supported: set<Modal>, status: int, contentType: string, extMimeType: string, b64: string)
    requires SupportedMedia(part, supported) && status == 200
    ensures var r := TransformMessagePart(part, supported, true, _ => URLToBase64(status, contentType, extMimeType, b64));
      r.MediaPart? && r.mimeType != "" && r.url == "data:" + r.mimeType + ";base64," + b64
  {
  }
}
