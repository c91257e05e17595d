/**
 * The `initialize` command of the dashboard edition: check the token, ask
 * the session service what it knows of the account's session, and either
 * report the account as already linked, restart its client on the saved
 * session, or start a fresh client that shows a QR code.
 *
 * The handler drives the session registry of `SessionRegistry`; the outcomes
 * the registry takes as inputs (the database, the driver's probe, the
 * teardown and `initialize()`) are parameters here as there.
 */
module InitializeHandler {
  import opened Optional
  import opened JsSemantics
  import opened UpdateSession
  import opened WaService
  import opened SessionRegistry
  import opened WsCommon

  /** The frames `initializeHandler` sends, in order. */
  datatype InitFrame =
    | AuthFailed
    | AlreadyConnected(state: string, phoneNumber: Option<string>)
    | Reconnecting
    | ScanQr
    | QrFrame(notice: Notice)

  const AuthFailedMessage: string := "Autentikasi gagal. Token tidak valid atau kadaluarsa."

  /** `decoded && decoded.username && decoded.id` */
  predicate HasIdentity(decoded: Option<Claims>) {
    decoded.Some? && Truthy(decoded.value.username) && Truthy(decoded.value.id)
  }

  /** The four branches of the handler after the session check. */
  datatype InitStep = AlreadyLinked | Resume | Fresh | Unrecognised

  /**
   * The branch taken for what `checkSession` reported and, for a valid
   * session, the state `checkClientConnection` reported.
   */
  function StepFor(status: string, state: string): (step: InitStep)
    ensures step == AlreadyLinked <==> status == "session_valid" && state == "CONNECTED"
    ensures step == Resume <==> status == "session_valid" && state != "CONNECTED"
    ensures step == Fresh <==> status == "session_invalid" || status == "session_not_found"
  {
    if status == "session_valid" then
      if state == "CONNECTED" then AlreadyLinked else Resume
    else if status == "session_invalid" || status == "session_not_found" then Fresh
    else Unrecognised
  }

  /** Each QR notice of the lifecycle call is forwarded as a frame. */
  function QrFrames(notices: seq<Notice>): (frames: seq<InitFrame>)
    ensures |frames| == |notices|
    ensures forall i | 0 <= i < |notices| :: frames[i] == QrFrame(notices[i])
  {
    seq(|notices|, i requires 0 <= i < |notices| => QrFrame(notices[i]))
  }

  /**
   * Every status `checkSession` can report is handled, and the `act` the
   * handler passes makes `handleClientLifecycle` take the same road: 'valid'
   * restarts on the saved session and 'invalid' starts afresh.
   */
  lemma EveryStatusIsHandled(folderExists: bool, accountKnown: bool, state: string)
    ensures var status := SessionStatus(folderExists, accountKnown);
      && StepFor(status, state) != Unrecognised
      && (StepFor(status, state) == Resume ==> LifecyclePlanFor("valid", status) == StartWithSession)
      && (StepFor(status, state) == Fresh ==> LifecyclePlanFor("invalid", status) == StartFresh)
  {
  }

  /**
   * `initializeHandler`. The session check and the connection check run on
   * the manager, then `handleClientLifecycle` with act 'valid' or
   * 'invalid'; its QR notices follow the handler's own frame.
   */
  method Initialize(m: SessionManager, decoded: Option<Claims>, accountType: string, dbOk: bool, probe: Probe, now: int,
                    teardown: Attempt, init: Attempt, qrs: seq<JsValue>, rendered: Option<string>)
    returns (frames: seq<InitFrame>)
    requires m.Valid()
    modifies m`clients, m`objects, m`nextClient, m`running, m`artifacts
    ensures m.Valid()
    ensures !HasIdentity(decoded) ==> frames == [AuthFailed] && m.Snapshot() == old(m.Snapshot())
    ensures HasIdentity(decoded) ==>
      var username := ToString(decoded.value.username);
      var key := AccountKey(accountType, username);
      var known := dbOk && m.db.HasRecord(accountType, username);
      var g1 := Reconcile(old(m.Snapshot()), key, known);
      var report := ConnectionReportFor(key in g1.clients, known, probe);
      var step := StepFor(SessionStatus(key in old(m.artifacts), known), report.state);
      && step != Unrecognised
      && (step == AlreadyLinked ==>
            frames == [AlreadyConnected(report.state, report.phoneNumber)] && m.Snapshot() == Stamp(g1, key, now))
      && (step == Resume ==>
            && frames == [Reconnecting] + QrFrames(LifecycleNotices(Stamp(g1, key, now), m.maxClients, "valid", key, known, qrs, rendered))
            && m.Snapshot() == Lifecycle(Stamp(g1, key, now), m.maxClients, "valid", accountType, username, known, teardown, init))
      && (step == Fresh ==>
            && frames == [ScanQr] + QrFrames(LifecycleNotices(g1, m.maxClients, "invalid", key, known, qrs, rendered))
            && m.Snapshot() == Lifecycle(g1, m.maxClients, "invalid", accountType, username, known, teardown, init))
  {
    if !HasIdentity(decoded) {
      return [AuthFailed];
    }
    var username := ToString(decoded.value.username);
    var status := m.CheckSession(accountType, username, dbOk);
    if status == "session_valid" {
      var session := m.CheckClientConnection(accountType, username, dbOk, probe, now);
      if session.state == "CONNECTED" {
        return [AlreadyConnected(session.state, session.phoneNumber)];
      }
      var _, notices := m.HandleClientLifecycle("valid", accountType, username, dbOk, teardown, init, qrs, rendered);
      return [Reconnecting] + QrFrames(notices);
    }
    var _, notices := m.HandleClientLifecycle("invalid", accountType, username, dbOk, teardown, init, qrs, rendered);
    frames := [ScanQr] + QrFrames(notices);
  }

  /**
   * Restarting on a valid session keeps the account's session folder, so no
   * new QR code is needed; the client is registered again exactly when it
   * is admitted and `initialize()` resolves.
   */
  lemma ResumeKeepsSessionFolder(g: Registry, maxClients: nat, accountType: string, username: string, known: bool,
                                 now: int, teardown: Attempt, init: Attempt)
    requires Consistent(g, maxClients)
    requires SessionStatus(AccountKey(accountType, username) in g.artifacts, known) == "session_valid"
    ensures var key := AccountKey(accountType, username);
      var g1 := Stamp(Reconcile(g, key, known), key, now);
      var h := Lifecycle(g1, maxClients, "valid", accountType, username, known, teardown, init);
      && key in h.artifacts
      && (Admitted(g, key, maxClients) ==> (key in h.clients <==> init.Succeeds?))
  {
    var key := AccountKey(accountType, username);
    var g1 := Stamp(Reconcile(g, key, known), key, now);
    StampKeepsConsistent(Reconcile(g, key, known), maxClients, key, now);
    assert Admitted(g1, key, maxClients) == Admitted(g, key, maxClients);
    LifecycleWipesOnlyForFreshStart(g1, maxClients, "valid", accountType, username, known, teardown, init);
  }

  /**
   * A fresh start leaves the account with a session folder exactly when the
   * client was admitted: a refused client keeps no old folder, and an
   * admitted one has the folder the new client created, even when
   * `initialize()` throws; it is registered exactly when that resolves.
   */
  lemma FreshStartReplacesSessionFolder(g: Registry, maxClients: nat, accountType: string, username: string, known: bool,
                                        teardown: Attempt, init: Attempt)
    requires Consistent(g, maxClients)
    ensures var key := AccountKey(accountType, username);
      var g1 := Reconcile(g, key, known);
      var h := Lifecycle(g1, maxClients, "invalid", accountType, username, known, teardown, init);
      && (key in h.artifacts <==> Admitted(g, key, maxClients))
      && (Admitted(g, key, maxClients) ==> (key in h.clients <==> init.Succeeds?))
  {
    var key := AccountKey(accountType, username);
    LifecycleWipesOnlyForFreshStart(Reconcile(g, key, known), maxClients, "invalid", accountType, username, known, teardown, init);
  }
}
