/**
 * The batch send command: the connection gate, the per-item validation, the
 * call into the session service for each valid item, and the counters and
 * details reported at the end.
 *
 * The service's answer for each item is an input: `sendMessage` never
 * throws (its failures come back as replies), while `sendMessageMedia`
 * either replies or throws. The random pause between sends is left out;
 * persisting the summary either completes or throws.
 */
module MessagesHandler {
  import opened Optional
  import opened JsSemantics
  import opened WaService
  import opened WsCommon

  /** One element of `data.messages`. */
  datatype MessageItem = MessageItem(number: JsValue, message: JsValue, fileUrl: JsValue, fileName: JsValue)

  /** The handler's arguments that shape every item: the project type, the batch-wide file URL, and the PDF / DOCX modes. */
  datatype BatchMode = BatchMode(typeProject: string, fileUrl: JsValue, isPDF: bool, isDOCX: bool)

  /** One element of `details`. */
  datatype Detail = Detail(whatsappNumber: JsValue, status: bool, detail: string)

  const InvalidItem: string := "Nomor atau pesan tidak valid"
  const FileUrlRequired: string := "File URL is required for file, PDF, or DOCX type"

  /** `!number || !message || !isValidPhoneNumber(number)` fails the item before any send. */
  predicate IsSendable(item: MessageItem) {
    Truthy(item.number) && Truthy(item.message) && IsValidPhoneNumber(item.number)
  }

  predicate IsMediaType(typeProject: string) {
    typeProject in {"file", "pdf", "docx"}
  }

  /** `messageFileUrl || fileUrl` */
  function EffectiveFileUrl(item: MessageItem, mode: BatchMode): JsValue {
    if Truthy(item.fileUrl) then item.fileUrl else mode.fileUrl
  }

  /** A media item that has no URL to send fails unless the batch is in PDF or DOCX mode. */
  predicate LacksFile(item: MessageItem, mode: BatchMode) {
    !Truthy(EffectiveFileUrl(item, mode)) && !mode.isPDF && !mode.isDOCX
  }

  /** `Error: ${error.message || 'Terjadi kesalahan, …'}` */
  function ErrorDetail(message: string): string {
    "Error: " + (if message == "" then "Terjadi kesalahan, periksa nomor, pesan, file, atau koneksi" else message)
  }

  /**
   * The detail recorded for one item, given what the media call does if it
   * is made. A text item that passes validation always succeeds: the text
   * send reports its own failures as a reply, which the handler does not
   * look at.
   */
  function ItemDetail(item: MessageItem, mode: BatchMode, media: MediaResult): (d: Detail)
    ensures d.whatsappNumber == item.number
    ensures d.status <==> IsSendable(item)
                          && (mode.typeProject == "text"
                              || (IsMediaType(mode.typeProject) && !LacksFile(item, mode) && media.MediaReply?))
    ensures !IsSendable(item) ==> d.detail == InvalidItem
  {
    if !IsSendable(item) then Detail(item.number, false, InvalidItem)
    else if mode.typeProject == "text" then Detail(item.number, true, "Berhasil")
    else if IsMediaType(mode.typeProject) then
      if LacksFile(item, mode) then Detail(item.number, false, ErrorDetail(FileUrlRequired))
      else match media
        case MediaReply(_) => Detail(item.number, true, "Berhasil")
        case MediaThrows(m) => Detail(item.number, false, ErrorDetail(m))
    else Detail(item.number, false, ErrorDetail("Unknown typeProject: " + mode.typeProject))
  }

  /** The number of successful details. */
  function Successes(details: seq<Detail>): (n: nat)
    ensures n <= |details|
    decreases |details|
  {
    if details == [] then 0
    else Successes(details[..|details| - 1]) + (if details[|details| - 1].status then 1 else 0)
  }

  /** The text of the last item that passed validation, or '' when none did. */
  function LastMessage(items: seq<MessageItem>): JsValue
    decreases |items|
  {
    if items == [] then Str("")
    else if IsSendable(items[|items| - 1]) then items[|items| - 1].message
    else LastMessage(items[..|items| - 1])
  }

  /** The progress frames: one for each item that fails validation, with the number of items handled so far. */
  function ProgressFrames(items: seq<MessageItem>): seq<nat>
    decreases |items|
  {
    if items == [] then []
    else
      var before := ProgressFrames(items[..|items| - 1]);
      if IsSendable(items[|items| - 1]) then before else before + [|items|]
  }

  /** `{ typeProject, message, totalSuccess, totalFailed, totalMessages }` */
  datatype Summary = Summary(typeProject: string, message: JsValue, totalSuccess: nat, totalFailed: nat, totalMessages: nat)

  /**
   * The `error` of the 'Failed to process messages' frame: a TypeError from
   * iterating a `messages` that is not an array or destructuring an element
   * that is `null` or `undefined` (the engine words it), or the message of a
   * failed database write.
   */
  datatype BatchError = TypeError | Thrown(message: string)

  /** The final frame of `sendMessagesHandler`. */
  datatype BatchReply =
    | LoginFailed
    | NotConnected(message: string, canReconnect: bool)
    | Processed(data: Summary, details: seq<Detail>)
    | ProcessFailed(error: BatchError)

  /**
   * The index of the first element of `messages` that is `null` or
   * `undefined` (destructuring it throws), or the length when there is none.
   */
  function FirstHole(entries: seq<Option<MessageItem>>): (h: nat)
    ensures h <= |entries|
    ensures h < |entries| ==> entries[h].None?
    ensures forall i | 0 <= i < h :: entries[i].Some?
  {
    if entries == [] then 0
    else if entries[0].None? then 0
    else 1 + FirstHole(entries[1..])
  }

  /** The first `h` elements, all present. */
  function ItemsBefore(entries: seq<Option<MessageItem>>, h: nat): (items: seq<MessageItem>)
    requires h <= |entries| && forall i | 0 <= i < h :: entries[i].Some?
    ensures |items| == h
    ensures forall i | 0 <= i < h :: Some(items[i]) == entries[i]
  {
    seq(h, i requires 0 <= i < h => entries[i].value)
  }

  const NotConnectedMessage: string := "WhatsApp belum terhubung. Silakan hubungkan akun terlebih dahulu."
  const InactiveMessage: string := "WhatsApp terputus karena tidak aktif. Silakan menghubungkan kembali."

  /**
   * `sendMessagesHandler`: `messages` is `data.messages`, absent when it is
   * not an array, with an absent element for `null` or `undefined`;
   * `media[i]` is what `sendMessageMedia` does for element i if it is
   * called; `persist` is whether writing the summary and the details
   * completes. Also returns the progress frames sent on the way. The
   * elements before the first absent one are handled in full before the
   * TypeError ends the batch.
   */
  method SendMessagesHandler(decoded: Option<Claims>, mode: BatchMode, messages: Option<seq<Option<MessageItem>>>,
                             connection: ConnectionReport, media: seq<MediaResult>, persist: Attempt)
    returns (reply: BatchReply, progress: seq<nat>)
    requires messages.Some? ==> |media| == |messages.value|
    ensures decoded.None? ==> reply == LoginFailed && progress == []
    ensures decoded.Some? && !connection.isConnected ==>
      progress == []
      && reply == NotConnected(
        if connection.state == "AUTO_DISCONNECTED" && connection.canReconnect then InactiveMessage else NotConnectedMessage,
        connection.state == "AUTO_DISCONNECTED" && connection.canReconnect)
    ensures decoded.Some? && connection.isConnected && messages.None? ==>
      reply == ProcessFailed(TypeError) && progress == []
    ensures decoded.Some? && connection.isConnected && messages.Some? ==>
      var entries := messages.value;
      var h := FirstHole(entries);
      var items := ItemsBefore(entries, h);
      && progress == ProgressFrames(items)
      && |Details(items, mode, media[..h])| == h
      && reply == (if h < |entries| then ProcessFailed(TypeError)
                   else if persist.Throws? then ProcessFailed(Thrown(persist.message))
                   else Processed(Summary(mode.typeProject, LastMessage(items),
                                          Successes(Details(items, mode, media[..h])),
                                          h - Successes(Details(items, mode, media[..h])), h),
                                  Details(items, mode, media[..h])))
  {
    progress := [];
    if decoded.None? {
      return LoginFailed, progress;
    }
    if !connection.isConnected {
      var responseMessage := NotConnectedMessage;
      var reconnectOption := false;
      if connection.state == "AUTO_DISCONNECTED" && connection.canReconnect {
        responseMessage := InactiveMessage;
        reconnectOption := true;
      }
      return NotConnected(responseMessage, reconnectOption), progress;
    }
    if messages.None? {
      return ProcessFailed(TypeError), progress;
    }
    var h := FirstHole(messages.value);
    var details, totalSuccess, totalFailed, messageText;
    details, totalSuccess, totalFailed, messageText, progress := SendEach(mode, ItemsBefore(messages.value, h), media[..h]);
    if h < |messages.value| {
      return ProcessFailed(TypeError), progress;
    }
    if persist.Throws? {
      return ProcessFailed(Thrown(persist.message)), progress;
    }
    reply := Processed(Summary(mode.typeProject, messageText, totalSuccess, totalFailed, totalSuccess + totalFailed), details);
  }

  /** The loop over `messages`: the details, the two counters, the last valid text and the progress frames. */
  method SendEach(mode: BatchMode, items: seq<MessageItem>, media: seq<MediaResult>)
    returns (details: seq<Detail>, totalSuccess: nat, totalFailed: nat, messageText: JsValue, progress: seq<nat>)
    requires |media| == |items|
    ensures details == Details(items, mode, media)
    ensures totalSuccess == Successes(details) && totalFailed == |items| - totalSuccess
    ensures messageText == LastMessage(items)
    ensures progress == ProgressFrames(items)
  {
    totalSuccess, totalFailed := 0, 0;
    var statusMessage := 0;
    messageText := Str("");
    details, progress := [], [];
    for i := 0 to |items|
      invariant details == Details(items[..i], mode, media[..i])
      invariant totalSuccess == Successes(details) && totalFailed == i - totalSuccess
      invariant statusMessage == i
      invariant messageText == LastMessage(items[..i])
      invariant progress == ProgressFrames(items[..i])
    {
      var item := items[i];
      DetailsStep(items, mode, media, i);
      // an invalid item fails without a send and is the only kind that reports progress
      var d := ItemDetail(item, mode, media[i]);
      statusMessage := statusMessage + 1;
      details := details + [d];
      if d.status {
        totalSuccess := totalSuccess + 1;
      } else {
        totalFailed := totalFailed + 1;
      }
      if !IsSendable(item) {
        progress := progress + [statusMessage];
      } else {
        messageText := item.message;
      }
    }
    assert items[..|items|] == items && media[..|media|] == media;
  }

  /** One more item extends each of the specification functions by that item alone. */
  lemma DetailsStep(items: seq<MessageItem>, mode: BatchMode, media: seq<MediaResult>, i: nat)
    requires |media| == |items| && i < |items|
    ensures Details(items[..i + 1], mode, media[..i + 1]) == Details(items[..i], mode, media[..i]) + [ItemDetail(items[i], mode, media[i])]
    ensures Successes(Details(items[..i + 1], mode, media[..i + 1]))
         == Successes(Details(items[..i], mode, media[..i])) + (if ItemDetail(items[i], mode, media[i]).status then 1 else 0)
    ensures LastMessage(items[..i + 1]) == if IsSendable(items[i]) then items[i].message else LastMessage(items[..i])
    ensures ProgressFrames(items[..i + 1]) == if IsSendable(items[i]) then ProgressFrames(items[..i]) else ProgressFrames(items[..i]) + [i + 1]
  {
    assert items[..i + 1][..i] == items[..i] && media[..i + 1][..i] == media[..i];
  }

  /** The detail of every item, in order. */
  function Details(items: seq<MessageItem>, mode: BatchMode, media: seq<MediaResult>): (ds: seq<Detail>)
    requires |media| == |items|
    ensures |ds| == |items|
    ensures forall i | 0 <= i < |items| :: ds[i] == ItemDetail(items[i], mode, media[i])
    decreases |items|
  {
    if items == [] then []
    else
      var n := |items| - 1;
      Details(items[..n], mode, media[..n]) + [ItemDetail(items[n], mode, media[n])]
  }

  // ---------------------------------------------------------------------------
  // The entry points

  /** `sendTextMessagesHandler`: the caller's typeProject is replaced by 'text'. */
  function TextMode(): BatchMode {
    BatchMode("text", Null, false, false)
  }

  /** `sendFileMessagesHandler`: the caller's typeProject and file URL. */
  function FileMode(typeProject: string, fileUrl: JsValue): BatchMode {
    BatchMode(typeProject, fileUrl, false, false)
  }

  /** `sendFileMessagesPDFHandler` */
  function PdfMode(): BatchMode {
    BatchMode("pdf", Null, true, false)
  }

  /** `sendFileMessagesDOCXHandler` */
  function DocxMode(): BatchMode {
    BatchMode("docx", Null, false, true)
  }

  /**
   * In text mode an item succeeds exactly when it passes validation, whatever
   * the send reports; in PDF and DOCX mode no item fails for lack of a URL,
   * and a valid item succeeds exactly when the media call does not throw; an
   * unknown project type fails every item.
   */
  lemma ModeDecidesSuccess(item: MessageItem, media: MediaResult, typeProject: string, fileUrl: JsValue)
    ensures ItemDetail(item, TextMode(), media).status <==> IsSendable(item)
    ensures ItemDetail(item, PdfMode(), media).status <==> IsSendable(item) && media.MediaReply?
    ensures ItemDetail(item, DocxMode(), media).status <==> IsSendable(item) && media.MediaReply?
    ensures typeProject !in {"text", "file", "pdf", "docx"} ==> !ItemDetail(item, FileMode(typeProject, fileUrl), media).status
    ensures IsSendable(item) && IsMediaType(typeProject) && !Truthy(item.fileUrl) && !Truthy(fileUrl) ==>
      ItemDetail(item, FileMode(typeProject, fileUrl), media) == Detail(item.number, false, ErrorDetail(FileUrlRequired))
  {
  }

  /**
   * In text mode the successes are exactly the items that passed validation:
   * every failure is an invalid item, and each one sent a progress frame.
   */
  lemma {:induction false} CountersAddUp(items: seq<MessageItem>, mode: BatchMode, media: seq<MediaResult>)
    requires |media| == |items|
    ensures mode == TextMode() ==> Successes(Details(items, mode, media)) == |items| - |ProgressFrames(items)|
    decreases |items|
  {
    if items != [] {
      var n := |items| - 1;
      CountersAddUp(items[..n], mode, media[..n]);
      assert Details(items, mode, media)[..n] == Details(items[..n], mode, media[..n]);
    }
  }

  /** Each progress frame counts the items handled so far, so the frames rise strictly and stay within the batch. */
  lemma {:induction false} ProgressRises(items: seq<MessageItem>)
    ensures forall i, j | 0 <= i < j < |ProgressFrames(items)| :: ProgressFrames(items)[i] < ProgressFrames(items)[j]
    ensures forall p | p in ProgressFrames(items) :: 1 <= p <= |items|
    decreases |items|
  {
    if items != [] {
      var n := |items| - 1;
      ProgressRises(items[..n]);
      var before := ProgressFrames(items[..n]);
      if !IsSendable(items[n]) {
        var after := before + [n + 1];
        assert forall i | 0 <= i < |before| :: after[i] == before[i] && before[i] in before;
      }
    }
  }
}
