/**
 * The decisions the multi-tenant session manager makes without touching its
 * registry: the account key `${username}-${account_type}`, how a QR code,
 * a probe of the connection, a failed send or invitation, a media message
 * and the authentication retries are turned into replies. The registry
 * itself is in `SessionRegistry`.
 *
 * The WhatsApp driver, the QR renderer and downloads are replaced by the
 * outcomes they produce, passed in as parameters.
 */
module WaService {
  import opened Optional
  import opened JsSemantics
  import opened UpdateSession

  /** Two days in milliseconds: an account idle for longer is disconnected. */
  const InactivityTimeout: int := 172800000
  /** How many times an authentication failure re-initializes the client before the session folder is wiped. */
  const MaxAuthRetries: nat := 3
  /** The admission cap when MAX_CONCURRENT_CLIENTS is not set. */
  const DefaultMaxConcurrentClients: nat := 10

  type TimerId = int
  type ClientId = int

  /** `${username}-${account_type}`: the registry key and the session folder name of an account. */
  function AccountKey(accountType: string, username: string): string {
    username + "-" + accountType
  }

  /** The outcome of a driver, file or network call: it resolves, or it throws with a message. */
  datatype Attempt = Succeeds | Throws(message: string)

  /** `{ status, message }` */
  datatype Reply = Reply(status: string, message: string)

  /** What the caller's `qrCallback` receives. */
  datatype Notice = Notice(status: string, message: string, qrCodeBase64: Option<string>, number: Option<string>)

  /**
   * The state of one driver client object. `accountType` and `username` are
   * those the client was created for (its event handlers close over them).
   */
  datatype ClientState = ClientState(
    accountType: string,
    username: string,
    lastActivity: Option<int>,
    inactivityChecker: Option<TimerId>,
    memoryLogger: Option<TimerId>)

  /** What a running inactivity interval closes over. */
  datatype Checker = Checker(accountType: string, username: string, client: ClientId, memoryLogger: TimerId)

  datatype TickOutcome = OrphanStopped | StillActive | Evicted(reply: Reply)

  /** What `getState()` and `client.info` give when the connection is probed. */
  datatype Probe = GetStateThrows | Answered(state: Option<string>, wid: Option<string>)

  datatype ConnectionReport = ConnectionReport(state: string, isConnected: bool, phoneNumber: Option<string>, canReconnect: bool)

  /** The intervals a client refers to (a handle that is not set clears nothing). */
  function Timers(s: ClientState): set<TimerId> {
    (if s.inactivityChecker.Some? then {s.inactivityChecker.value} else {})
      + (if s.memoryLogger.Some? then {s.memoryLogger.value} else {})
  }

  /** `Date.now() - client.lastActivity > INACTIVITY_TIMEOUT`; an unset activity is NaN, which compares false. */
  predicate IsIdle(lastActivity: Option<int>, now: int) {
    lastActivity.Some? && now - lastActivity.value > InactivityTimeout
  }

  // ---------------------------------------------------------------------------
  // Keys

  /** Account keys tell accounts apart as long as usernames contain no '-'. */
  lemma AccountKeyInjective(t1: string, u1: string, t2: string, u2: string)
    requires '-' !in u1 && '-' !in u2
    ensures AccountKey(t1, u1) == AccountKey(t2, u2) <==> t1 == t2 && u1 == u2
  {
    var k1, k2 := AccountKey(t1, u1), AccountKey(t2, u2);
    if k1 == k2 {
      assert |u1| == |u2| by {
        assert k1[|u1|] == '-' && k2[|u2|] == '-';
        assert forall i | 0 <= i < |u1| :: k1[i] == u1[i];
        assert forall i | 0 <= i < |u2| :: k2[i] == u2[i];
      }
      assert u1 == k1[..|u1|] && u2 == k2[..|u2|];
      assert t1 == k1[|u1| + 1..] && t2 == k2[|u2| + 1..];
    }
  }

  /** With a '-' in a username two different accounts share a key, a registry slot and a session folder. */
  lemma AccountKeyCollision()
    ensures AccountKey("c", "a-b") == AccountKey("b-c", "a")
  {
  }

  // ---------------------------------------------------------------------------
  // Pure decisions

  /** `handleQRCode(qr)`; `rendered` is what `qrcode.toDataURL` produces, `None` when it throws. */
  function HandleQRCode(qr: JsValue, rendered: Option<string>): (n: Notice)
    ensures n.status == "waiting_for_qr" <==> qr.Str? && qr.s != "" && rendered.Some?
    ensures n.status != "waiting_for_qr" ==> n.status == "qr_error" && n.qrCodeBase64 == None
    ensures n.status == "waiting_for_qr" ==> n.qrCodeBase64 == rendered
    ensures n.number == None
  {
    if !Truthy(qr) || TypeOf(qr) != "string" then
      Notice("qr_error", "Invalid QR code data.", None, None)
    else if rendered.None? then
      Notice("qr_error", "Error generating QR Code.", None, None)
    else
      Notice("waiting_for_qr", "Silakan scan QR Code untuk menghubungkan ke WhatsApp.", rendered, None)
  }

  /** The notices the `qr` events of one initialization produce: only the first QR is handled. */
  function QrNotices(qrs: seq<JsValue>, rendered: Option<string>): seq<Notice> {
    if qrs == [] then [] else [HandleQRCode(qrs[0], rendered)]
  }

  /** What `checkSession` reports, given whether the session folder exists and whether the database knows the account. */
  function SessionStatus(folderExists: bool, accountKnown: bool): string {
    if !folderExists then "session_not_found"
    else if !accountKnown then "session_invalid"
    else "session_valid"
  }

  /**
   * What `checkClientConnection` reports, given whether a client is
   * registered, whether the database knows the account, and what probing the
   * registered client gives. `canReconnect` is absent (false) except on the
   * AUTO_DISCONNECTED report.
   */
  function ConnectionReportFor(registered: bool, accountKnown: bool, probe: Probe): (r: ConnectionReport)
    ensures r.isConnected <==> registered && probe.Answered? && probe.wid.Some?
    ensures r.canReconnect <==> !registered && accountKnown
    ensures !registered ==> r.state == (if accountKnown then "AUTO_DISCONNECTED" else "DISCONNECTED")
    ensures registered && !r.isConnected ==> r.state == "ERROR"
    ensures r.isConnected ==> r.state != "" && r.phoneNumber == Some(ReplaceFirst(probe.wid.value, "@c.us", ""))
    ensures r.isConnected ==> (r.state == "CONNECTED" <==> probe.state.None? || probe.state.value in {"", "CONNECTED"})
    ensures !r.isConnected ==> r.phoneNumber == None
  {
    if !registered then
      if accountKnown then ConnectionReport("AUTO_DISCONNECTED", false, None, true)
      else ConnectionReport("DISCONNECTED", false, None, false)
    else match probe
      case GetStateThrows => ConnectionReport("ERROR", false, None, false)
      case Answered(state, wid) =>
        // `client.info.wid` of an unset `info` throws: the catch reports ERROR
        if wid.None? then ConnectionReport("ERROR", false, None, false)
        else ConnectionReport(if state.None? || state.value == "" then "CONNECTED" else state.value,
                              true, Some(ReplaceFirst(wid.value, "@c.us", "")), false)
  }

  /** The phone number reported for a serialized id `<digits>@c.us` is the digits. */
  lemma PhoneNumberOfSerializedId(number: string)
    requires '@' !in number
    ensures ReplaceFirst(number + "@c.us", "@c.us", "") == number
  {
    var s := number + "@c.us";
    assert StartsWith(s[|number|..], "@c.us");
    forall j | 0 <= j < |number|
      ensures !StartsWith(s[j..], "@c.us")
    {
      assert s[j..][0] == number[j];
    }
    assert s[..|number|] == number;
  }

  /** How `sendMessage` classifies a send that threw. */
  function SendFailure(message: string): (r: Reply)
    ensures r.status == "error_timeout" <==> message == "Message send timeout"
    ensures r.status != "error_timeout" ==> r.status == "error"
  {
    if message == "Message send timeout" then Reply("error_timeout", "Timeout saat mengirim pesan")
    else Reply("error", "Gagal mengirim pesan: " + message)
  }

  /** The chat ids a list of numbers is addressed to. */
  function ContactIds(numbers: seq<string>): (ids: seq<string>)
    ensures |ids| == |numbers|
    ensures forall i | 0 <= i < |ids| :: ids[i] == numbers[i] + "@c.us"
  {
    seq(|numbers|, i requires 0 <= i < |numbers| => numbers[i] + "@c.us")
  }

  /** How `inviteToGroup` classifies an invitation that threw. */
  function InviteFailure(message: string): (r: Reply)
    ensures r.status == "error_timeout" <==> message == "Invite timeout"
    ensures r.status != "error_timeout" ==> r.status == "error"
  {
    if message == "Invite timeout" then Reply("error_timeout", "Timeout saat mengundang peserta ke grup")
    else Reply("error", "Gagal mengundang peserta: " + message)
  }

  /** The three ways `handleClientLifecycle` can go. */
  datatype LifecyclePlan = StartWithSession | StartFresh | Unhandled

  /** Which way `handleClientLifecycle(act, …)` goes, given what `checkSession` reported. */
  function LifecyclePlanFor(act: string, status: string): (p: LifecyclePlan)
    ensures p == StartWithSession <==> act == "valid" && status == "session_valid"
    ensures p == Unhandled <==> status == "session_valid" && act != "valid" && act != "invalid"
    ensures status != "session_valid" ==> p == StartFresh
  {
    if act == "valid" && status == "session_valid" then StartWithSession
    else if act == "invalid" || status != "session_valid" then StartFresh
    else Unhandled
  }

  /** Each of the (up to three) re-initializations after an authentication failure throws. */
  predicate AllAttemptsFail(attempts: seq<Attempt>)
    requires |attempts| >= MaxAuthRetries
  {
    forall i | 0 <= i < MaxAuthRetries :: attempts[i].Throws?
  }

  /**
   * `retryAuth`, rescheduled after each failed re-initialization: tries
   * `attempts[0]`, `attempts[1]`, … until one resolves; the call after the
   * third failure decides to wipe the session folder.
   */
  method RetryAuth(attempts: seq<Attempt>) returns (tries: nat, wipe: bool)
    requires |attempts| >= MaxAuthRetries
    ensures 1 <= tries <= MaxAuthRetries
    ensures wipe <==> AllAttemptsFail(attempts)
    ensures wipe ==> tries == MaxAuthRetries
    ensures !wipe ==> attempts[tries - 1].Succeeds? && forall j | 0 <= j < tries - 1 :: attempts[j].Throws?
  {
    var retries: nat := 0;
    var settled := false;
    wipe := false;
    while !settled
      invariant retries <= MaxAuthRetries
      invariant forall j | 0 <= j < retries :: !settled || j < retries - 1 || wipe ==> attempts[j].Throws?
      invariant settled && !wipe ==> 1 <= retries && attempts[retries - 1].Succeeds?
      invariant wipe ==> settled && retries == MaxAuthRetries
      decreases (if settled then 0 else 1) + MaxAuthRetries - retries
    {
      if retries >= MaxAuthRetries {
        wipe := true;
        settled := true;
      } else {
        retries := retries + 1;
        if attempts[retries - 1].Succeeds? {
          settled := true;
        }
      }
    }
    tries := retries;
  }

  /** How a download (of a file or an image) ends. */
  datatype Download = Downloaded(data: string) | Cancelled | DownloadFails(message: string)

  /** The media message `sendMessageMedia` hands to the driver. */
  datatype MediaMessage = MediaMessage(chatId: string, mimeType: string, data: string, fileName: Option<string>, caption: string)

  /** What `sendMessageMedia` does: resolves with a reply, or throws. */
  datatype MediaResult = MediaReply(reply: Reply) | MediaThrows(message: string)

  const PdfMime: string := "application/pdf"
  const DocxMime: string := "application/vnd.openxmlformats-officedocument.wordprocessingml.document"
  const ImageMime: string := "image/jpeg"

  /** Types of project whose media is fetched from `fileUrl` before sending. */
  predicate NeedsDownload(typeProject: string) {
    typeProject !in {"pdf", "docx"}
  }

  /**
   * The media message built for `typeProject`, or `None` when the download
   * it needs did not complete. A "file" is sent as a PDF named after the last
   * segment of the URL path (`urlBaseName`); "pdf" and "docx" send `fileUrl`
   * itself as the base64 body; anything else is downloaded as a JPEG image.
   */
  function MediaToSend(number: string, message: string, typeProject: string, fileUrl: string, fileName: string,
                       download: Download, urlBaseName: string): (m: Option<MediaMessage>)
    ensures m.None? <==> NeedsDownload(typeProject) && !download.Downloaded?
    ensures m.Some? ==> m.value.chatId == number + "@c.us" && m.value.caption == message
    ensures m.Some? ==> (m.value.mimeType == PdfMime <==> typeProject in {"file", "pdf"})
    ensures m.Some? ==> (m.value.mimeType == ImageMime <==> NeedsDownload(typeProject) && typeProject != "file")
    ensures m.Some? && !NeedsDownload(typeProject) ==> m.value.data == fileUrl
    ensures m.Some? && NeedsDownload(typeProject) ==> m.value.data == download.data
    ensures m.Some? ==> (m.value.fileName.None? <==> NeedsDownload(typeProject) && typeProject != "file")
  {
    var chatId := number + "@c.us";
    if typeProject == "pdf" then Some(MediaMessage(chatId, PdfMime, fileUrl, Some(fileName + ".pdf"), message))
    else if typeProject == "docx" then Some(MediaMessage(chatId, DocxMime, fileUrl, Some(fileName + ".docx"), message))
    else if !download.Downloaded? then None
    else if typeProject == "file" then Some(MediaMessage(chatId, PdfMime, download.data, Some(urlBaseName), message))
    else Some(MediaMessage(chatId, ImageMime, download.data, None, message))
  }

  /** What a download that did not complete is rethrown as. */
  function DownloadFailure(typeProject: string, download: Download): (message: string)
    requires !download.Downloaded?
    ensures download.DownloadFails? ==> message == download.message
  {
    match download
    case Cancelled => if typeProject == "file" then "File download timeout" else "Image download timeout"
    case DownloadFails(m) => m
  }

  /** What `createGroup` resolves with, and the participant ids it asked the driver to add. */
  datatype GroupReply = GroupReply(status: string, message: string, groupId: Option<string>)

  /** `groupName` is created (as `gid`) or the driver call throws. */
  datatype GroupCreation = Created(gid: string) | CreationThrows

  /** What `disconnectClientButKeepSession` answers for `key`, given whether a client is registered and how `destroy()` ends. */
  function KeepSessionReply(key: string, registered: bool, destroy: Attempt): (r: Reply)
    ensures r.status == "not_found" <==> !registered
    ensures r.status == "disconnected" <==> registered && destroy.Succeeds?
    ensures registered && destroy.Throws? ==> r == Reply("error", "Error disconnecting client: " + destroy.message)
  {
    if !registered then Reply("not_found", "Client for " + key + " not found")
    else if destroy.Throws? then Reply("error", "Error disconnecting client: " + destroy.message)
    else Reply("disconnected", "Client for " + key + " disconnected (session preserved)")
  }

  /** The refusal `initializeClient` gives a new account once MAX_CONCURRENT_CLIENTS clients are registered. */
  function LimitReply(maxClients: nat): (r: Reply)
    ensures r.status == "connection_limit_reached"
  {
    Reply("connection_limit_reached", "Batas maksimum koneksi (" + NatToString(maxClients) + ") tercapai. Coba lagi nanti.")
  }

  /** The refusal names the configured limit. */
  lemma LimitReplyNamesLimit(maxClients: nat)
    ensures Contains(LimitReply(maxClients).message, NatToString(maxClients))
  {
    var prefix, digits := "Batas maksimum koneksi (", NatToString(maxClients);
    var m := LimitReply(maxClients).message;
    assert m == prefix + (digits + ") tercapai. Coba lagi nanti.");
    assert m[|prefix|..] == digits + ") tercapai. Coba lagi nanti.";
    assert m[|prefix|..][..|digits|] == digits;
    ContainsAt(m, digits, |prefix|);
  }

  /** The `qr` handler of one initialization: a flag lets only the first QR through. */
  method ForwardQrCodes(qrs: seq<JsValue>, rendered: Option<string>) returns (notices: seq<Notice>)
    ensures notices == QrNotices(qrs, rendered)
    ensures |notices| <= 1
  {
    var qrCodeSent := false;
    notices := [];
    for i := 0 to |qrs|
      invariant qrCodeSent == (i > 0)
      invariant notices == QrNotices(qrs[..i], rendered)
      invariant |notices| <= 1
    {
      if !qrCodeSent {
        qrCodeSent := true;
        notices := notices + [HandleQRCode(qrs[i], rendered)];
      }
    }
    assert qrs[..|qrs|] == qrs;
  }
}
