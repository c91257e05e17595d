/**
 * The single-account WhatsApp service of the dashboard edition: the same
 * ready / authenticated / QR flags as the API server's service, without a
 * headless mode, and with the driver session kept in the `wa_sessions` table
 * under the fixed id 'default-session'.
 *
 * The session the driver hands over is carried as its JSON text, so that
 * `JSON.stringify` and `JSON.parse` are the identity; a database call
 * either completes or throws, as the outcome passed in says.
 */
module ServiceWaMain {
  import opened Optional
  import opened WaService

  /** The primary key every saved session is stored under. */
  const DefaultSessionId: string := "default-session"

  /** The fields of the service object. */
  datatype Service = Service(qrCode: Option<string>, qrCodeBase64: Option<string>, isReady: bool, isAuthenticated: bool)

  /** `!!this.qrCodeBase64` */
  predicate HasQr(s: Service) {
    s.qrCodeBase64.Some? && s.qrCodeBase64.value != ""
  }

  /** The constructed service. */
  const Initial: Service := Service(None, None, false, false)

  // ---------------------------------------------------------------------------
  // The session store

  /** `customAuth.saveSession(session)`: upserts the row 'default-session'; a failed write is logged and dropped. */
  function AfterSave(table: map<string, string>, session: string, write: Attempt): map<string, string> {
    if write.Succeeds? then table[DefaultSessionId := session] else table
  }

  /** `customAuth.restoreSession()`: the saved session, or null when there is none or the lookup throws. */
  function Restored(table: map<string, string>, lookup: Attempt): (r: Option<string>)
    ensures r.Some? <==> lookup.Succeeds? && DefaultSessionId in table
    ensures r.Some? ==> r.value == table[DefaultSessionId]
  {
    if lookup.Succeeds? && DefaultSessionId in table then Some(table[DefaultSessionId]) else None
  }

  /**
   * A saved session is what a later restore returns, a second save replaces
   * the first rather than adding a row, and saving touches no other row.
   */
  lemma SaveThenRestore(table: map<string, string>, first: string, second: string)
    ensures Restored(AfterSave(table, first, Succeeds), Succeeds) == Some(first)
    ensures AfterSave(AfterSave(table, first, Succeeds), second, Succeeds) == AfterSave(table, second, Succeeds)
    ensures AfterSave(table, first, Succeeds).Keys == table.Keys + {DefaultSessionId}
    ensures forall id | id in table && id != DefaultSessionId :: AfterSave(table, first, Succeeds)[id] == table[id]
  {
  }

  /** A failed write leaves the table as it was, so a restore still sees the earlier session. */
  lemma FailedSaveKeepsEarlierSession(table: map<string, string>, session: string, message: string)
    ensures Restored(AfterSave(table, session, Throws(message)), Succeeds) == Restored(table, Succeeds)
  {
  }

  // ---------------------------------------------------------------------------
  // Events

  /** The `qr` event: the QR string is kept and rendered; a failed render clears both QR fields. */
  function QrReceived(s: Service, qr: string, rendered: Option<string>): Service {
    match rendered
    case Some(url) => s.(qrCode := Some(qr), qrCodeBase64 := Some(url))
    case None => s.(qrCode := None, qrCodeBase64 := None)
  }

  /** The `ready` event. */
  function Ready(s: Service): Service {
    s.(isReady := true, qrCode := None, qrCodeBase64 := None)
  }

  /** The `authenticated` event; it also saves the session. */
  function Authenticated(s: Service): Service {
    s.(isAuthenticated := true, qrCode := None, qrCodeBase64 := None)
  }

  /** The `auth_failure` event. */
  function AuthFailure(s: Service): Service {
    s.(isAuthenticated := false)
  }

  // ---------------------------------------------------------------------------
  // Answers

  /** `{ success, message?, qr?, status }` of `getQRCode` */
  datatype QrReply = QrReply(success: bool, status: string, message: string, qr: Option<string>)

  /** `getQRCode`: authenticated first, then no rendered QR, then the QR. */
  function QrAnswer(s: Service): (r: QrReply)
    ensures r.status == "authenticated" <==> s.isAuthenticated
    ensures r.status == "waiting_for_qr" <==> !s.isAuthenticated && !HasQr(s)
    ensures r.status == "qr_ready" <==> !s.isAuthenticated && HasQr(s)
    ensures r.success <==> r.status == "qr_ready"
    ensures r.qr.Some? <==> r.success
    ensures r.success ==> r.qr == s.qrCodeBase64
  {
    if s.isAuthenticated then QrReply(false, "authenticated", "Already authenticated", None)
    else if !HasQr(s) then QrReply(false, "waiting_for_qr", "QR Code not available yet. Please wait...", None)
    else QrReply(true, "qr_ready", "", s.qrCodeBase64)
  }

  datatype StatusReport = StatusReport(isReady: bool, isAuthenticated: bool, hasQR: bool)

  /** `getStatus` */
  function Status(s: Service): (r: StatusReport)
    ensures r.isReady == s.isReady && r.isAuthenticated == s.isAuthenticated && r.hasQR == HasQr(s)
  {
    StatusReport(s.isReady, s.isAuthenticated, HasQr(s))
  }

  /** An authentication failure withdraws authentication but leaves readiness, and the QR, as they were. */
  lemma AuthFailureKeepsReadiness(s: Service)
    ensures Status(AuthFailure(s)) == StatusReport(s.isReady, false, HasQr(s))
    ensures QrAnswer(AuthFailure(s)).status != "authenticated"
  {
  }

  /** A failed render leaves nothing to hand out; a rendered QR is handed out until authentication. */
  lemma QrAvailability(s: Service, qr: string, url: string)
    ensures QrAnswer(QrReceived(s, qr, None)).status != "qr_ready"
    ensures QrReceived(s, qr, None).qrCode.None?
    ensures !s.isAuthenticated && url != "" ==> QrAnswer(QrReceived(s, qr, Some(url))).qr == Some(url)
    ensures QrAnswer(Authenticated(QrReceived(s, qr, Some(url)))).status == "authenticated"
    ensures !Status(Ready(s)).hasQR && Status(Ready(s)).isReady
  {
  }

  // ---------------------------------------------------------------------------
  // The session table and the service object

  /** The `wa_sessions` table: serialized session by id. */
  class WaSessionTable {
    var rows: map<string, string>

    constructor (rows: map<string, string>)
      ensures this.rows == rows
    {
      this.rows := rows;
    }

    /** `WASession.upsert({ id: 'default-session', session_data })`, as `saveSession` calls it. */
    method SaveSession(session: string, write: Attempt)
      modifies this`rows
      ensures rows == AfterSave(old(rows), session, write)
    {
      if write.Succeeds? {
        rows := rows[DefaultSessionId := session];
      }
    }

    /** `restoreSession()` */
    method RestoreSession(lookup: Attempt) returns (restored: Option<string>)
      ensures restored == Restored(rows, lookup)
    {
      if lookup.Throws? {
        return None;
      }
      if DefaultSessionId in rows {
        return Some(rows[DefaultSessionId]);
      }
      return None;
    }
  }

  class WhatsAppService {
    var qrCode: Option<string>
    var qrCodeBase64: Option<string>
    var isReady: bool
    var isAuthenticated: bool
    const store: WaSessionTable

    function Snapshot(): Service
      reads this
    {
      Service(qrCode, qrCodeBase64, isReady, isAuthenticated)
    }

    constructor (store: WaSessionTable)
      ensures Snapshot() == Initial && this.store == store
    {
      this.store := store;
      qrCode := None;
      qrCodeBase64 := None;
      isReady := false;
      isAuthenticated := false;
    }

    method OnQr(qr: string, rendered: Option<string>)
      modifies this
      ensures Snapshot() == QrReceived(old(Snapshot()), qr, rendered)
    {
      qrCode := Some(qr);
      if rendered.Some? {
        qrCodeBase64 := rendered;
      } else {
        qrCode := None;
        qrCodeBase64 := None;
      }
    }

    method OnReady()
      modifies this
      ensures Snapshot() == Ready(old(Snapshot()))
    {
      isReady := true;
      qrCode := None;
      qrCodeBase64 := None;
    }

    /** The `authenticated` event: the flags change and the session is written to the table. */
    method OnAuthenticated(session: string, write: Attempt)
      modifies this, store
      ensures Snapshot() == Authenticated(old(Snapshot()))
      ensures store.rows == AfterSave(old(store.rows), session, write)
    {
      isAuthenticated := true;
      qrCode := None;
      qrCodeBase64 := None;
      store.SaveSession(session, write);
    }

    method OnAuthFailure()
      modifies this
      ensures Snapshot() == AuthFailure(old(Snapshot()))
    {
      isAuthenticated := false;
    }

    function GetQRCode(): (r: QrReply)
      reads this
      ensures r == QrAnswer(Snapshot())
    {
      QrAnswer(Snapshot())
    }

    function GetStatus(): (r: StatusReport)
      reads this
      ensures r == Status(Snapshot())
    {
      Status(Snapshot())
    }
  }
}
