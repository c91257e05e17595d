/**
 * The single-account WhatsApp service of the API server: the readiness,
 * authentication and QR flags that the driver's events move, the optional
 * headless mode in which no driver is started, the QR and status answers
 * built from those flags, the guarded send, and the list of webhooks that
 * incoming messages are forwarded to.
 *
 * Every driver, QR-rendering and HTTP call is an outcome passed in; event
 * callbacks are method calls.
 */
module ServiceWa {
  import opened Optional
  import opened JsSemantics
  import opened WaService

  /** The fields of the service object. */
  datatype Service = Service(
    hasClient: bool,
    qrCode: Option<string>,
    qrCodeBase64: Option<string>,
    isReady: bool,
    isAuthenticated: bool,
    headlessMode: bool,
    webhooks: seq<string>)

  /** `!!this.qrCodeBase64` */
  predicate HasQr(s: Service) {
    s.qrCodeBase64.Some? && s.qrCodeBase64.value != ""
  }

  predicate NoDuplicates(hooks: seq<string>) {
    forall i, j | 0 <= i < j < |hooks| :: hooks[i] != hooks[j]
  }

  // ---------------------------------------------------------------------------
  // Construction and events

  /**
   * The constructed service, given the environment variable
   * WHATSAPP_HEADLESS: headless exactly when it is the string "true", and a
   * driver client is created exactly when not headless.
   */
  function Start(headlessEnv: Option<string>): (s: Service)
    ensures s.headlessMode <==> headlessEnv == Some("true")
    ensures s.hasClient <==> !s.headlessMode
    ensures !s.isReady && !s.isAuthenticated && !HasQr(s) && s.webhooks == []
  {
    var headless := headlessEnv == Some("true");
    Service(!headless, None, None, false, false, headless, [])
  }

  const BrowserLaunchFailure: string := "Failed to launch the browser process"

  /** The settlement of `client.initialize()`: a browser that cannot be launched switches to headless mode. */
  function InitializeSettled(s: Service, init: Attempt): Service {
    if init.Throws? && Contains(init.message, BrowserLaunchFailure) then s.(headlessMode := true) else s
  }

  /** The `qr` event: the QR string is kept and rendered; a failed render clears both QR fields. */
  function QrReceived(s: Service, qr: string, rendered: Option<string>): Service {
    match rendered
    case Some(url) => s.(qrCode := Some(qr), qrCodeBase64 := Some(url))
    case None => s.(qrCode := None, qrCodeBase64 := None)
  }

  /** The `ready` event. */
  function Ready(s: Service): Service {
    s.(isReady := true, qrCode := None, qrCodeBase64 := None)
  }

  /** The `authenticated` event. */
  function Authenticated(s: Service): Service {
    s.(isAuthenticated := true, qrCode := None, qrCodeBase64 := None)
  }

  /** The `auth_failure` and `disconnected` events, which do the same. */
  function LoggedOut(s: Service): Service {
    s.(isAuthenticated := false, isReady := false)
  }

  // ---------------------------------------------------------------------------
  // Answers

  /** `{ success, message?, qr?, status }` of `getQRCode` */
  datatype QrReply = QrReply(success: bool, status: string, message: string, qr: Option<string>)

  /** `getQRCode`: headless first, then authenticated, then no rendered QR, then the QR. */
  function QrAnswer(s: Service): (r: QrReply)
    ensures r.status == "headless" <==> s.headlessMode
    ensures r.status == "authenticated" <==> !s.headlessMode && s.isAuthenticated
    ensures r.status == "waiting_for_qr" <==> !s.headlessMode && !s.isAuthenticated && !HasQr(s)
    ensures r.status == "qr_ready" <==> !s.headlessMode && !s.isAuthenticated && HasQr(s)
    ensures r.success <==> r.status == "qr_ready"
    ensures r.qr.Some? <==> r.success
    ensures r.success ==> r.qr == s.qrCodeBase64
  {
    if s.headlessMode then QrReply(false, "headless", "WhatsApp is running in headless mode", None)
    else if s.isAuthenticated then QrReply(false, "authenticated", "Already authenticated", None)
    else if !HasQr(s) then QrReply(false, "waiting_for_qr", "QR Code not available yet. Please wait...", None)
    else QrReply(true, "qr_ready", "", s.qrCodeBase64)
  }

  datatype StatusReport = StatusReport(isReady: bool, isAuthenticated: bool, hasQR: bool, headlessMode: bool)

  /** `getStatus`: every flag false in headless mode, the flags themselves otherwise. */
  function Status(s: Service): (r: StatusReport)
    ensures s.headlessMode ==> r == StatusReport(false, false, false, true)
    ensures !s.headlessMode ==> r == StatusReport(s.isReady, s.isAuthenticated, HasQr(s), false)
  {
    if s.headlessMode then StatusReport(false, false, false, true)
    else StatusReport(s.isReady, s.isAuthenticated, HasQr(s), false)
  }

  /** The status and the QR answer agree on whether a QR can be handed out. */
  lemma StatusAgreesWithQrAnswer(s: Service)
    ensures QrAnswer(s).success <==> Status(s).hasQR && !Status(s).isAuthenticated
  {
  }

  /** A service started headless answers "headless" to every query, whatever events follow. */
  lemma HeadlessIsPermanent(headlessEnv: Option<string>, qr: string, rendered: Option<string>, init: Attempt)
    requires headlessEnv == Some("true")
    ensures var s := Start(headlessEnv);
      && QrAnswer(QrReceived(s, qr, rendered)).status == "headless"
      && QrAnswer(Authenticated(Ready(s))).status == "headless"
      && Status(LoggedOut(InitializeSettled(s, init))) == StatusReport(false, false, false, true)
  {
  }

  /** A browser-launch failure makes the service headless; any other outcome leaves it as it was. */
  lemma BrowserFailureMeansHeadless(s: Service, init: Attempt)
    ensures InitializeSettled(s, init).headlessMode <==> s.headlessMode || (init.Throws? && Contains(init.message, BrowserLaunchFailure))
    ensures QrAnswer(InitializeSettled(s, Throws(BrowserLaunchFailure))).status == "headless"
  {
    var m := BrowserLaunchFailure;
    assert m[0..][..|m|] == m;
    ContainsAt(m, m, 0);
  }

  /** Once the account is ready or authenticated no QR is handed out, until a new `qr` event renders one. */
  lemma NoQrAfterReadyOrAuthenticated(s: Service)
    ensures QrAnswer(Ready(s)).status != "qr_ready" && !Status(Ready(s)).hasQR
    ensures QrAnswer(Authenticated(s)).status in {"headless", "authenticated"}
    ensures !s.headlessMode ==> Status(Ready(s)).isReady && Status(Authenticated(s)).isAuthenticated
  {
  }

  /** A rendered QR is handed out unless the service is headless or already authenticated; a failed render hands out nothing. */
  lemma RenderedQrIsOffered(s: Service, qr: string, url: string)
    ensures !s.headlessMode && !s.isAuthenticated && url != "" ==>
      QrAnswer(QrReceived(s, qr, Some(url))) == QrReply(true, "qr_ready", "", Some(url))
    ensures QrAnswer(QrReceived(s, qr, None)).status != "qr_ready"
  {
  }

  /** A logout clears both flags and keeps the QR fields. */
  lemma LoggedOutClearsFlags(s: Service)
    ensures !s.headlessMode ==> Status(LoggedOut(s)) == StatusReport(false, false, HasQr(s), false)
    ensures QrAnswer(LoggedOut(s)).status != "authenticated"
  {
  }

  // ---------------------------------------------------------------------------
  // Sending

  const ContactSuffix: string := "@c.us"

  /** `phone.includes('@c.us') ? phone : `${phone}@c.us`` */
  function FormatNumber(phone: string): string {
    if Contains(phone, ContactSuffix) then phone else phone + ContactSuffix
  }

  /** The formatted number always names a contact, formatting twice changes nothing, and the suffix is added exactly when missing. */
  lemma FormatNumberAddsSuffixOnce(phone: string)
    ensures Contains(FormatNumber(phone), ContactSuffix)
    ensures FormatNumber(FormatNumber(phone)) == FormatNumber(phone)
    ensures FormatNumber(phone) == phone <==> Contains(phone, ContactSuffix)
  {
    if !Contains(phone, ContactSuffix) {
      var t := phone + ContactSuffix;
      assert t[|phone|..][..|ContactSuffix|] == ContactSuffix;
      ContainsAt(t, ContactSuffix, |phone|);
    }
  }

  /** The answer of `client.isRegisteredUser`. */
  datatype UserCheck = Registered(registered: bool) | CheckThrows(message: string)

  /** The settlement of `client.sendMessage` raced against the 10-second timeout. */
  datatype Delivery = Delivered(messageId: string) | DeliveryThrows(message: string)

  /** `{ success, messageId?, error? }` */
  datatype SendReply = SendReply(success: bool, messageId: Option<string>, error: Option<string>)

  /** The reply of `sendMessage`, and the chat the message was handed to, if any. */
  datatype SendAttempt = SendAttempt(reply: SendReply, sentTo: Option<string>)

  const TimeoutMessage: string := "Timeout sending message"

  /** `err.message || 'Failed to send message'` */
  function SendError(message: string): string {
    if message == "" then "Failed to send message" else message
  }

  /** `sendMessage(phone, message)` */
  function SendMessage(s: Service, phone: string, probe: UserCheck, delivery: Delivery): (r: SendAttempt)
    ensures r.sentTo.Some? <==> s.hasClient && s.isReady && probe == Registered(true)
    ensures r.sentTo.Some? ==> r.sentTo.value == FormatNumber(phone)
    ensures r.reply.success <==> r.sentTo.Some? && delivery.Delivered?
    ensures r.reply.success ==> r.reply.messageId == Some(delivery.messageId) && r.reply.error.None?
    ensures !r.reply.success ==> r.reply.error.Some? && r.reply.messageId.None?
    ensures !(s.hasClient && s.isReady) ==> r.reply.error == Some("WhatsApp client is not ready")
  {
    if !s.hasClient || !s.isReady then SendAttempt(SendReply(false, None, Some("WhatsApp client is not ready")), None)
    else
      var chat := FormatNumber(phone);
      match probe
      case CheckThrows(m) => SendAttempt(SendReply(false, None, Some(SendError(m))), None)
      case Registered(false) =>
        SendAttempt(SendReply(false, None, Some("Phone number is not registered on WhatsApp")), None)
      case Registered(true) =>
        match delivery
        case Delivered(id) => SendAttempt(SendReply(true, Some(id), None), Some(chat))
        case DeliveryThrows(m) => SendAttempt(SendReply(false, None, Some(SendError(m))), Some(chat))
  }

  /** A send that times out is reported with the timeout's message and no message id. */
  lemma TimedOutSendFails(s: Service, phone: string)
    requires s.hasClient && s.isReady
    ensures SendMessage(s, phone, Registered(true), DeliveryThrows(TimeoutMessage)).reply
      == SendReply(false, None, Some(TimeoutMessage))
  {
  }

  // ---------------------------------------------------------------------------
  // Webhooks

  /** The webhooks after `registerWebhook(url)`, and its answer. */
  function AddWebhook(hooks: seq<string>, url: string): (seq<string>, bool) {
    if url !in hooks then (hooks + [url], true) else (hooks, false)
  }

  /** `hooks.indexOf(url)` */
  function IndexOfUrl(hooks: seq<string>, url: string): (i: int)
    ensures -1 <= i < |hooks|
    ensures i >= 0 ==> hooks[i] == url && url !in hooks[..i]
    ensures i == -1 <==> url !in hooks
    decreases |hooks|
  {
    if hooks == [] then -1
    else if hooks[0] == url then 0
    else
      var k := IndexOfUrl(hooks[1..], url);
      assert hooks == [hooks[0]] + hooks[1..];
      assert k >= 0 ==> hooks[..k + 1] == [hooks[0]] + hooks[1..][..k];
      if k == -1 then -1 else k + 1
  }

  /** The webhooks after `unregisterWebhook(url)` (`splice` at the first occurrence), and its answer. */
  function RemoveWebhook(hooks: seq<string>, url: string): (seq<string>, bool) {
    var i := IndexOfUrl(hooks, url);
    if i != -1 then (hooks[..i] + hooks[i + 1..], true) else (hooks, false)
  }

  /** Every entry of `hooks` other than `url`, in order. */
  function Without(hooks: seq<string>, url: string): (r: seq<string>)
    decreases |hooks|
  {
    if hooks == [] then []
    else if hooks[0] == url then Without(hooks[1..], url)
    else [hooks[0]] + Without(hooks[1..], url)
  }

  /** Registering answers true exactly for a new URL, which is then listed last; the list stays free of duplicates. */
  lemma AddWebhookKeepsListDistinct(hooks: seq<string>, url: string)
    requires NoDuplicates(hooks)
    ensures var (r, added) := AddWebhook(hooks, url);
      && (added <==> url !in hooks)
      && NoDuplicates(r)
      && url in r
      && (added ==> r[..|hooks|] == hooks && r[|hooks|] == url)
      && (!added ==> r == hooks)
  {
  }

  lemma {:induction false} WithoutAbsent(hooks: seq<string>, url: string)
    requires url !in hooks
    ensures Without(hooks, url) == hooks
    decreases |hooks|
  {
    if hooks != [] {
      WithoutAbsent(hooks[1..], url);
    }
  }

  lemma {:induction false} WithoutAppend(a: seq<string>, b: seq<string>, url: string)
    ensures Without(a + b, url) == Without(a, url) + Without(b, url)
    decreases |a|
  {
    if a == [] {
      assert a + b == b;
    } else {
      assert (a + b)[1..] == a[1..] + b;
      WithoutAppend(a[1..], b, url);
    }
  }

  /** Dropping the only occurrence of `url`, at `i`, is filtering it out. */
  lemma DropOnlyOccurrence(hooks: seq<string>, url: string, i: nat)
    requires NoDuplicates(hooks) && i < |hooks| && hooks[i] == url
    ensures Without(hooks, url) == hooks[..i] + hooks[i + 1..]
    ensures multiset(hooks[..i] + hooks[i + 1..]) == multiset(hooks) - multiset{url}
  {
    var before, after := hooks[..i], hooks[i + 1..];
    assert hooks == before + [url] + after;
    assert url !in before by {
      forall k | 0 <= k < |before|
        ensures before[k] != url
      {
        assert before[k] == hooks[k];
      }
    }
    assert url !in after by {
      forall k | 0 <= k < |after|
        ensures after[k] != url
      {
        assert after[k] == hooks[i + 1 + k];
      }
    }
    WithoutAbsent(before, url);
    WithoutAbsent(after, url);
    WithoutAppend(before + [url], after, url);
    WithoutAppend(before, [url], url);
    assert Without([url], url) == [];
  }

  /** Dropping one entry keeps a list free of duplicates, and the dropped entry, if it occurred once, is gone. */
  lemma DropKeepsDistinct(hooks: seq<string>, i: nat)
    requires NoDuplicates(hooks) && i < |hooks|
    ensures NoDuplicates(hooks[..i] + hooks[i + 1..])
    ensures hooks[i] !in hooks[..i] + hooks[i + 1..]
  {
    var r := hooks[..i] + hooks[i + 1..];
    forall a | 0 <= a < |r|
      ensures r[a] == hooks[if a < i then a else a + 1]
    {
    }
  }

  /**
   * On a list without duplicates, unregistering removes exactly the URL and
   * keeps the others in their order, and answers true exactly when the URL
   * was registered.
   */
  lemma RemoveWebhookKeepsOrder(hooks: seq<string>, url: string)
    requires NoDuplicates(hooks)
    ensures var (r, removed) := RemoveWebhook(hooks, url);
      && (removed <==> url in hooks)
      && r == Without(hooks, url)
      && url !in r
      && NoDuplicates(r)
      && multiset(r) == multiset(hooks) - multiset{url}
  {
    var i := IndexOfUrl(hooks, url);
    if i == -1 {
      WithoutAbsent(hooks, url);
      assert multiset(hooks)[url] == 0;
    } else {
      var r := hooks[..i] + hooks[i + 1..];
      assert RemoveWebhook(hooks, url) == (r, true);
      DropOnlyOccurrence(hooks, url, i);
      DropKeepsDistinct(hooks, i);
    }
  }

  /** Unregistering a URL just registered restores the list. */
  lemma AddThenRemoveWebhook(hooks: seq<string>, url: string)
    requires NoDuplicates(hooks) && url !in hooks
    ensures RemoveWebhook(AddWebhook(hooks, url).0, url) == (hooks, true)
  {
    var r := hooks + [url];
    assert IndexOfUrl(r, url) == |hooks| by {
      assert r[..|hooks|] == hooks;
    }
    assert r[..|hooks|] + r[|hooks| + 1..] == hooks;
  }

  /** The URLs whose post failed, in order. */
  function FailedUrls(hooks: seq<string>, outcomes: seq<Attempt>): (r: seq<string>)
    requires |outcomes| == |hooks|
    ensures |r| <= |hooks|
    ensures forall u | u in r :: u in hooks
    decreases |hooks|
  {
    if hooks == [] then []
    else
      var n := |hooks| - 1;
      var before := FailedUrls(hooks[..n], outcomes[..n]);
      if outcomes[n].Throws? then before + [hooks[n]] else before
  }

  /** A URL is reported as failed exactly when its post throws; with no failing post nothing is reported. */
  lemma {:induction false} FailedUrlsExact(hooks: seq<string>, outcomes: seq<Attempt>)
    requires |outcomes| == |hooks| && NoDuplicates(hooks)
    ensures forall i | 0 <= i < |hooks| :: hooks[i] in FailedUrls(hooks, outcomes) <==> outcomes[i].Throws?
    decreases |hooks|
  {
    if hooks != [] {
      var n := |hooks| - 1;
      FailedUrlsExact(hooks[..n], outcomes[..n]);
      forall i | 0 <= i < |hooks|
        ensures hooks[i] in FailedUrls(hooks, outcomes) <==> outcomes[i].Throws?
      {
        if i < n {
          assert hooks[i] == hooks[..n][i] && outcomes[i] == outcomes[..n][i];
          assert hooks[i] != hooks[n];
        } else {
          assert hooks[n] !in hooks[..n] by {
            forall k | 0 <= k < n
              ensures hooks[..n][k] != hooks[n]
            {
              assert hooks[..n][k] == hooks[k];
            }
          }
        }
      }
    }
  }

  // ---------------------------------------------------------------------------
  // The service object

  class WhatsAppService {
    var hasClient: bool
    var qrCode: Option<string>
    var qrCodeBase64: Option<string>
    var isReady: bool
    var isAuthenticated: bool
    var headlessMode: bool
    var webhooks: seq<string>

    function Snapshot(): Service
      reads this
    {
      Service(hasClient, qrCode, qrCodeBase64, isReady, isAuthenticated, headlessMode, webhooks)
    }

    ghost predicate Valid()
      reads this
    {
      NoDuplicates(webhooks)
    }

    constructor (headlessEnv: Option<string>)
      ensures Snapshot() == Start(headlessEnv)
      ensures Valid()
    {
      var headless := headlessEnv == Some("true");
      headlessMode := headless;
      hasClient := !headless;
      qrCode := None;
      qrCodeBase64 := None;
      isReady := false;
      isAuthenticated := false;
      webhooks := [];
    }

    /** The end of `initializeClient`, once `client.initialize()` has settled. */
    method InitializeSettles(init: Attempt)
      modifies this
      ensures Snapshot() == InitializeSettled(old(Snapshot()), init)
    {
      if init.Throws? && Contains(init.message, BrowserLaunchFailure) {
        headlessMode := true;
      }
    }

    /** The `qr` event, with the outcome of rendering the QR. */
    method OnQr(qr: string, rendered: Option<string>)
      modifies this
      ensures Snapshot() == QrReceived(old(Snapshot()), qr, rendered)
    {
      qrCode := Some(qr);
      if rendered.Some? {
        qrCodeBase64 := rendered;
      } else {
        qrCode := None;
        qrCodeBase64 := None;
      }
    }

    method OnReady()
      modifies this
      ensures Snapshot() == Ready(old(Snapshot()))
    {
      isReady := true;
      qrCode := None;
      qrCodeBase64 := None;
    }

    method OnAuthenticated()
      modifies this
      ensures Snapshot() == Authenticated(old(Snapshot()))
    {
      isAuthenticated := true;
      qrCode := None;
      qrCodeBase64 := None;
    }

    /** The `auth_failure` event and, with the same effect, the `disconnected` event. */
    method OnAuthFailure()
      modifies this
      ensures Snapshot() == LoggedOut(old(Snapshot()))
    {
      isAuthenticated := false;
      isReady := false;
    }

    function GetQRCode(): (r: QrReply)
      reads this
      ensures r == QrAnswer(Snapshot())
    {
      QrAnswer(Snapshot())
    }

    function GetStatus(): (r: StatusReport)
      reads this
      ensures r == Status(Snapshot())
    {
      Status(Snapshot())
    }

    method Send(phone: string, probe: UserCheck, delivery: Delivery) returns (reply: SendReply, sentTo: Option<string>)
      ensures SendAttempt(reply, sentTo) == SendMessage(Snapshot(), phone, probe, delivery)
    {
      if !hasClient || !isReady {
        return SendReply(false, None, Some("WhatsApp client is not ready")), None;
      }
      var formattedNumber := if Contains(phone, ContactSuffix) then phone else phone + ContactSuffix;
      if probe.CheckThrows? {
        return SendReply(false, None, Some(SendError(probe.message))), None;
      }
      if !probe.registered {
        return SendReply(false, None, Some("Phone number is not registered on WhatsApp")), None;
      }
      sentTo := Some(formattedNumber);
      if delivery.Delivered? {
        reply := SendReply(true, Some(delivery.messageId), None);
      } else {
        reply := SendReply(false, None, Some(SendError(delivery.message)));
      }
    }

    method RegisterWebhook(url: string) returns (added: bool)
      requires Valid()
      modifies this
      ensures Valid()
      ensures (webhooks, added) == AddWebhook(old(webhooks), url)
      ensures Snapshot() == old(Snapshot()).(webhooks := webhooks)
    {
      AddWebhookKeepsListDistinct(webhooks, url);
      if url !in webhooks {
        webhooks := webhooks + [url];
        return true;
      }
      return false;
    }

    method UnregisterWebhook(url: string) returns (removed: bool)
      requires Valid()
      modifies this
      ensures Valid()
      ensures (webhooks, removed) == RemoveWebhook(old(webhooks), url)
      ensures Snapshot() == old(Snapshot()).(webhooks := webhooks)
    {
      RemoveWebhookKeepsOrder(webhooks, url);
      var index := IndexOfUrl(webhooks, url);
      if index != -1 {
        webhooks := webhooks[..index] + webhooks[index + 1..];
        return true;
      }
      return false;
    }

    /**
     * `sendToWebhooks`: posts to every registered URL in order, each post's
     * outcome given; a failing post is logged and the loop goes on.
     */
    method SendToWebhooks(outcomes: seq<Attempt>) returns (posted: seq<string>, failed: seq<string>)
      requires |outcomes| == |webhooks|
      ensures posted == webhooks
      ensures failed == FailedUrls(webhooks, outcomes)
    {
      posted, failed := [], [];
      for i := 0 to |webhooks|
        invariant posted == webhooks[..i]
        invariant failed == FailedUrls(webhooks[..i], outcomes[..i])
      {
        assert webhooks[..i + 1][..i] == webhooks[..i] && outcomes[..i + 1][..i] == outcomes[..i];
        posted := posted + [webhooks[i]];
        if outcomes[i].Throws? {
          failed := failed + [webhooks[i]];
        }
      }
      assert webhooks[..|webhooks|] == webhooks && outcomes[..|outcomes|] == outcomes;
    }
  }
}
