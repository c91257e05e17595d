/**
 * The registry of live WhatsApp clients kept by the session manager: the
 * module-level `clients` map keyed by `${username}-${account_type}`, the
 * driver client objects it points to (with their `lastActivity` and interval
 * handles), the intervals still scheduled, and the session folders under
 * `.wwebjs_auth`.
 *
 * Each operation is first a function from one `Registry` value to the next;
 * the `SessionManager` class keeps the same state in fields, updates them
 * step by step as the source does, and proves that every method leaves
 * exactly the state the function describes. The driver and the database
 * are outcomes passed in; the session folders are a set of account keys, a
 * folder being created when its client is built (the driver's
 * authentication strategy does so before the browser starts) and removed
 * without failure; the clock is `now`; each firing
 * of an inactivity interval is a call of `InactivityTick`. Event handlers
 * run one at a time, each to completion.
 */
module SessionRegistry {
  import opened Optional
  import opened JsSemantics
  import opened UpdateSession
  import opened WaService

  /** The whole state the session manager keeps besides the database. */
  datatype Registry = Registry(
    clients: map<string, ClientId>,
    objects: map<ClientId, ClientState>,
    nextClient: ClientId,
    artifacts: set<string>,
    running: set<TimerId>,
    checkers: map<TimerId, Checker>,
    nextTimer: TimerId)

  // ---------------------------------------------------------------------------
  // Map sizes

  lemma RemoveKeyCount<K, V>(m: map<K, V>, k: K)
    ensures |m - {k}| == if k in m then |m| - 1 else |m|
  {
    if k in m {
      assert (m - {k}).Keys == m.Keys - {k};
    } else {
      assert m - {k} == m;
    }
  }

  lemma SetKeyCount<K, V>(m: map<K, V>, k: K, v: V)
    ensures |m[k := v]| == if k in m then |m| else |m| + 1
  {
    if k in m {
      assert m[k := v].Keys == m.Keys;
    } else {
      assert m[k := v].Keys == m.Keys + {k};
    }
  }

  // ---------------------------------------------------------------------------
  // The invariant

  /** Both interval handles of a client, if set, are below `bound`. */
  predicate TimersBelow(s: ClientState, bound: TimerId) {
    && (s.inactivityChecker.Some? ==> s.inactivityChecker.value < bound)
    && (s.memoryLogger.Some? ==> s.memoryLogger.value < bound)
  }

  /** Every registered key names a known client object. */
  predicate Closed(g: Registry) {
    forall k | k in g.clients :: g.clients[k] in g.objects
  }

  /**
   * Registered keys name known clients; client ids and interval handles are
   * below the counters that issue them (so a new one is fresh); every
   * inactivity checker watches a known client; and no more than
   * MAX_CONCURRENT_CLIENTS clients are registered.
   */
  predicate Consistent(g: Registry, maxClients: nat) {
    && Closed(g)
    && (forall c | c in g.objects :: c < g.nextClient && TimersBelow(g.objects[c], g.nextTimer))
    && (forall t | t in g.running :: t < g.nextTimer)
    && (forall t | t in g.checkers ::
          t < g.nextTimer && g.checkers[t].client in g.objects && g.checkers[t].memoryLogger < g.nextTimer)
    && |g.clients| <= maxClients
  }

  /** A new account is let in while fewer than MAX_CONCURRENT_CLIENTS clients are registered; a registered one always is. */
  predicate Admitted(g: Registry, key: string, maxClients: nat) {
    |g.clients| < maxClients || key in g.clients
  }

  // ---------------------------------------------------------------------------
  // Transitions

  /** `updateClientActivity`: the registered client's `lastActivity` becomes `now`. */
  function Stamp(g: Registry, key: string, now: int): Registry
    requires Closed(g)
  {
    if key in g.clients then
      var c := g.clients[key];
      g.(objects := g.objects[c := g.objects[c].(lastActivity := Some(now))])
    else g
  }

  /**
   * `trackClientActivity`: stamps the registered client and starts a memory
   * logger and an inactivity checker for it. Handles stored by an earlier
   * call are overwritten without being cleared.
   */
  function Track(g: Registry, accountType: string, username: string, now: int): Registry
    requires Closed(g)
  {
    var key := AccountKey(accountType, username);
    if key !in g.clients then g
    else
      var c, logger, checker := g.clients[key], g.nextTimer, g.nextTimer + 1;
      g.(nextTimer := g.nextTimer + 2,
         running := g.running + {logger, checker},
         objects := g.objects[c := g.objects[c].(lastActivity := Some(now),
                                                 memoryLogger := Some(logger),
                                                 inactivityChecker := Some(checker))],
         checkers := g.checkers[checker := Checker(accountType, username, c, logger)])
  }

  /** `disconnectClientButKeepSession`: clears the client's intervals; the key goes only if `destroy()` resolves. */
  function KeepSession(g: Registry, key: string, destroy: Attempt): Registry
    requires Closed(g)
  {
    if key !in g.clients then g
    else
      var g1 := g.(running := g.running - Timers(g.objects[g.clients[key]]));
      if destroy.Throws? then g1 else g1.(clients := g.clients - {key})
  }

  /** One firing of the inactivity interval `checker`, and what it did. */
  function Tick(g: Registry, checker: TimerId, now: int, destroy: Attempt): (Registry, TickOutcome)
    requires Closed(g) && checker in g.checkers && g.checkers[checker].client in g.objects
  {
    var ch := g.checkers[checker];
    var key := AccountKey(ch.accountType, ch.username);
    var stopped := g.(running := g.running - {checker, ch.memoryLogger});
    if key !in g.clients then (stopped, OrphanStopped)
    else if !IsIdle(g.objects[ch.client].lastActivity, now) then (g, StillActive)
    else (KeepSession(stopped, key, destroy), Evicted(KeepSessionReply(key, true, destroy)))
  }

  /** `checkSession`: a session folder whose account the database does not know is deleted. */
  function Reconcile(g: Registry, key: string, known: bool): Registry {
    if key in g.artifacts && !known then g.(artifacts := g.artifacts - {key}) else g
  }

  /**
   * The end of `initializeClient`: the new client's session folder exists,
   * whatever `initialize()` did; the client is registered if it resolves,
   * and the key unregistered if it throws.
   */
  function Register(g: Registry, accountType: string, username: string, init: Attempt): Registry {
    var key := AccountKey(accountType, username);
    if init.Throws? then g.(clients := g.clients - {key}, artifacts := g.artifacts + {key})
    else g.(nextClient := g.nextClient + 1,
            objects := g.objects[g.nextClient := ClientState(accountType, username, None, None, None)],
            artifacts := g.artifacts + {key},
            clients := g.clients[key := g.nextClient])
  }

  /** What `initializeClient` returns once past the admission check. */
  function InitOutcome(init: Attempt): (r: Option<Reply>)
    ensures r.None? <==> init.Succeeds?
  {
    if init.Succeeds? then None else Some(Reply("initialization_failed", "Error: " + init.message))
  }

  /**
   * `initializeClient`: a new account is refused while the registry is full;
   * otherwise a client registered under the key is torn down (session kept)
   * and a new client takes its place if `initialize()` resolves.
   */
  function Initialize(g: Registry, maxClients: nat, accountType: string, username: string,
                      teardown: Attempt, init: Attempt): Registry
    requires Closed(g)
  {
    var key := AccountKey(accountType, username);
    if !Admitted(g, key, maxClients) then g
    else Register(if key in g.clients then KeepSession(g, key, teardown) else g, accountType, username, init)
  }

  function InitializeReply(g: Registry, maxClients: nat, key: string, init: Attempt): Option<Reply> {
    if !Admitted(g, key, maxClients) then Some(LimitReply(maxClients)) else InitOutcome(init)
  }

  function InitializeNotices(g: Registry, maxClients: nat, key: string, qrs: seq<JsValue>, rendered: Option<string>): seq<Notice> {
    if !Admitted(g, key, maxClients) then [] else QrNotices(qrs, rendered)
  }

  /**
   * The `disconnected` handler of client `c`: only its inactivity checker is
   * cleared, and the key of its account is unregistered if `destroy()`
   * resolves.
   */
  function Disconnected(g: Registry, c: ClientId, destroy: Attempt): Registry
    requires c in g.objects
  {
    var s := g.objects[c];
    var g1 := if s.inactivityChecker.Some? then g.(running := g.running - {s.inactivityChecker.value}) else g;
    if destroy.Succeeds? then g1.(clients := g.clients - {AccountKey(s.accountType, s.username)}) else g1
  }

  /** The `auth_failure` handler of client `c`: the session folder goes once three re-initializations have failed. */
  function AuthFailed(g: Registry, c: ClientId, attempts: seq<Attempt>): Registry
    requires c in g.objects && |attempts| >= MaxAuthRetries
  {
    if AllAttemptsFail(attempts) then
      g.(artifacts := g.artifacts - {AccountKey(g.objects[c].accountType, g.objects[c].username)})
    else g
  }

  /** `disconnectClient`: clears the intervals; if `destroy()` resolves, the session folder and the key go. */
  function Disconnect(g: Registry, key: string, destroy: Attempt): Registry
    requires Closed(g)
  {
    if key !in g.clients then g
    else
      var g1 := g.(running := g.running - Timers(g.objects[g.clients[key]]));
      if destroy.Throws? then g1
      else
        var g2 := if key in g1.artifacts then g1.(artifacts := g1.artifacts - {key}) else g1;
        g2.(clients := g.clients - {key})
  }

  /** What `disconnectClient` answers. */
  function DisconnectReply(key: string, registered: bool, destroy: Attempt): (r: Reply)
    ensures r.status == "not_found" <==> !registered
    ensures r.status == "disconnected" <==> registered && destroy.Succeeds?
    ensures registered && destroy.Throws? ==> r.status == "error"
  {
    if !registered then Reply("not_found", "Client for " + key + " tidak ditemukan.")
    else if destroy.Throws? then Reply("error", "Gagal memutuskan koneksi untuk " + key)
    else Reply("disconnected", "Akun " + key + " berhasil diputuskan.")
  }

  /** The registry `handleClientLifecycle` starts the client from: reconciled, and wiped for a fresh start. */
  function Prepared(g: Registry, act: string, key: string, known: bool): Registry {
    var g1 := Reconcile(g, key, known);
    if LifecyclePlanFor(act, SessionStatus(key in g.artifacts, known)) == StartFresh && key in g1.artifacts then
      g1.(artifacts := g1.artifacts - {key})
    else g1
  }

  /** `handleClientLifecycle(act, …)`. */
  function Lifecycle(g: Registry, maxClients: nat, act: string, accountType: string, username: string, known: bool,
                     teardown: Attempt, init: Attempt): Registry
    requires Closed(g)
  {
    var key := AccountKey(accountType, username);
    if LifecyclePlanFor(act, SessionStatus(key in g.artifacts, known)) == Unhandled then Reconcile(g, key, known)
    else Initialize(Prepared(g, act, key, known), maxClients, accountType, username, teardown, init)
  }

  function LifecycleReply(g: Registry, maxClients: nat, act: string, key: string, known: bool, init: Attempt): Option<Reply> {
    if LifecyclePlanFor(act, SessionStatus(key in g.artifacts, known)) == Unhandled then
      Some(Reply("unknown_error", "Unhandled session state."))
    else InitializeReply(Prepared(g, act, key, known), maxClients, key, init)
  }

  /** The QR notices `handleClientLifecycle` passes to its callback. */
  function LifecycleNotices(g: Registry, maxClients: nat, act: string, key: string, known: bool,
                            qrs: seq<JsValue>, rendered: Option<string>): seq<Notice> {
    if LifecyclePlanFor(act, SessionStatus(key in g.artifacts, known)) == Unhandled then []
    else InitializeNotices(Prepared(g, act, key, known), maxClients, key, qrs, rendered)
  }

  /** `reconnectClient`: only an unregistered account with a database row is initialized. */
  function Reconnect(g: Registry, maxClients: nat, accountType: string, username: string, known: bool,
                     teardown: Attempt, init: Attempt): Registry
    requires Closed(g)
  {
    var key := AccountKey(accountType, username);
    if key in g.clients || !known then g
    else Initialize(g, maxClients, accountType, username, teardown, init)
  }

  function ReconnectReply(g: Registry, maxClients: nat, key: string, known: bool, init: Attempt): Option<Reply> {
    if key in g.clients then Some(Reply("already_connected", "Client sudah terhubung"))
    else if !known then Some(Reply("session_not_found", "Session tidak ditemukan"))
    else InitializeReply(g, maxClients, key, init)
  }

  // ---------------------------------------------------------------------------
  // Every transition keeps the registry consistent

  lemma StampKeepsConsistent(g: Registry, maxClients: nat, key: string, now: int)
    requires Consistent(g, maxClients)
    ensures Consistent(Stamp(g, key, now), maxClients)
  {
  }

  lemma TrackKeepsConsistent(g: Registry, maxClients: nat, accountType: string, username: string, now: int)
    requires Consistent(g, maxClients)
    ensures Consistent(Track(g, accountType, username, now), maxClients)
  {
    var h := Track(g, accountType, username, now);
    var key := AccountKey(accountType, username);
    if key in g.clients {
      assert h.clients == g.clients && h.objects.Keys == g.objects.Keys;
      forall c | c in h.objects
        ensures c < h.nextClient && TimersBelow(h.objects[c], h.nextTimer)
      {
        assert TimersBelow(g.objects[c], g.nextTimer);
      }
    }
  }

  lemma KeepSessionKeepsConsistent(g: Registry, maxClients: nat, key: string, destroy: Attempt)
    requires Consistent(g, maxClients)
    ensures Consistent(KeepSession(g, key, destroy), maxClients)
    ensures |KeepSession(g, key, destroy).clients| == if key in g.clients && destroy.Succeeds? then |g.clients| - 1 else |g.clients|
  {
    RemoveKeyCount(g.clients, key);
  }

  lemma TickKeepsConsistent(g: Registry, maxClients: nat, checker: TimerId, now: int, destroy: Attempt)
    requires Consistent(g, maxClients) && checker in g.checkers
    ensures Consistent(Tick(g, checker, now, destroy).0, maxClients)
  {
    var ch := g.checkers[checker];
    KeepSessionKeepsConsistent(g.(running := g.running - {checker, ch.memoryLogger}), maxClients,
                               AccountKey(ch.accountType, ch.username), destroy);
  }

  lemma RegisterKeepsConsistent(g: Registry, maxClients: nat, accountType: string, username: string, init: Attempt)
    requires Consistent(g, maxClients) && Admitted(g, AccountKey(accountType, username), maxClients)
    ensures Consistent(Register(g, accountType, username, init), maxClients)
  {
    var key := AccountKey(accountType, username);
    RemoveKeyCount(g.clients, key);
    SetKeyCount(g.clients, key, g.nextClient);
    var h := Register(g, accountType, username, init);
    if init.Succeeds? {
      forall c | c in h.objects
        ensures c < h.nextClient && TimersBelow(h.objects[c], h.nextTimer)
      {
        if c != g.nextClient {
          assert TimersBelow(g.objects[c], g.nextTimer);
        }
      }
    }
  }

  lemma InitializeKeepsConsistent(g: Registry, maxClients: nat, accountType: string, username: string,
                                  teardown: Attempt, init: Attempt)
    requires Consistent(g, maxClients)
    ensures Consistent(Initialize(g, maxClients, accountType, username, teardown, init), maxClients)
  {
    var key := AccountKey(accountType, username);
    if Admitted(g, key, maxClients) {
      var g1 := if key in g.clients then KeepSession(g, key, teardown) else g;
      if key in g.clients {
        KeepSessionKeepsConsistent(g, maxClients, key, teardown);
      }
      assert Admitted(g1, key, maxClients);
      RegisterKeepsConsistent(g1, maxClients, accountType, username, init);
    }
  }

  lemma DisconnectedKeepsConsistent(g: Registry, maxClients: nat, c: ClientId, destroy: Attempt)
    requires Consistent(g, maxClients) && c in g.objects
    ensures Consistent(Disconnected(g, c, destroy), maxClients)
  {
    RemoveKeyCount(g.clients, AccountKey(g.objects[c].accountType, g.objects[c].username));
  }

  lemma DisconnectKeepsConsistent(g: Registry, maxClients: nat, key: string, destroy: Attempt)
    requires Consistent(g, maxClients)
    ensures Consistent(Disconnect(g, key, destroy), maxClients)
  {
    RemoveKeyCount(g.clients, key);
  }

  lemma LifecycleKeepsConsistent(g: Registry, maxClients: nat, act: string, accountType: string, username: string,
                                 known: bool, teardown: Attempt, init: Attempt)
    requires Consistent(g, maxClients)
    ensures Consistent(Lifecycle(g, maxClients, act, accountType, username, known, teardown, init), maxClients)
  {
    var key := AccountKey(accountType, username);
    InitializeKeepsConsistent(Prepared(g, act, key, known), maxClients, accountType, username, teardown, init);
  }

  lemma ReconnectKeepsConsistent(g: Registry, maxClients: nat, accountType: string, username: string,
                                 known: bool, teardown: Attempt, init: Attempt)
    requires Consistent(g, maxClients)
    ensures Consistent(Reconnect(g, maxClients, accountType, username, known, teardown, init), maxClients)
  {
    InitializeKeepsConsistent(g, maxClients, accountType, username, teardown, init);
  }

  // ---------------------------------------------------------------------------
  // What each transition means

  /** Stamping changes the `lastActivity` of the registered client and nothing else; an unregistered key changes nothing. */
  lemma StampChangesOnlyActivity(g: Registry, key: string, now: int)
    requires Closed(g)
    ensures var h := Stamp(g, key, now);
      && h.(objects := g.objects) == g
      && (key !in g.clients ==> h == g)
      && (key in g.clients ==>
            && h.objects.Keys == g.objects.Keys
            && h.objects[g.clients[key]].lastActivity == Some(now)
            && Timers(h.objects[g.clients[key]]) == Timers(g.objects[g.clients[key]])
            && forall c | c in g.objects && c != g.clients[key] :: h.objects[c] == g.objects[c])
  {
  }

  /**
   * Tracking a registered client starts two new intervals that are not
   * already running, stores them on the client, and leaves every interval
   * that was running still running: the handles of an earlier call are lost,
   * not cleared.
   */
  lemma TrackStartsFreshIntervals(g: Registry, maxClients: nat, accountType: string, username: string, now: int)
    requires Consistent(g, maxClients)
    ensures var h := Track(g, accountType, username, now);
      var key := AccountKey(accountType, username);
      && g.running <= h.running
      && h.clients == g.clients && h.artifacts == g.artifacts
      && (key !in g.clients ==> h == g)
      && (key in g.clients ==>
            var s := h.objects[g.clients[key]];
            && s.lastActivity == Some(now)
            && s.memoryLogger.Some? && s.inactivityChecker.Some?
            && s.memoryLogger.value != s.inactivityChecker.value
            && s.memoryLogger.value !in g.running && s.inactivityChecker.value !in g.running
            && s.memoryLogger.value in h.running && s.inactivityChecker.value in h.running
            && s.inactivityChecker.value !in g.checkers
            && h.checkers[s.inactivityChecker.value] == Checker(accountType, username, g.clients[key], s.memoryLogger.value))
  {
  }

  /**
   * Disconnecting with the session kept never touches the session folders or
   * the client objects; an unregistered key changes nothing; otherwise the
   * client's intervals stop (and no other), and its key is unregistered
   * exactly when `destroy()` resolves, every other key keeping its client.
   */
  lemma KeepSessionKeepsFolders(g: Registry, key: string, destroy: Attempt)
    requires Closed(g)
    ensures var h := KeepSession(g, key, destroy);
      && h.artifacts == g.artifacts && h.objects == g.objects
      && (key !in g.clients ==> h == g)
      && (key in g.clients ==>
            && (key in h.clients <==> destroy.Throws?)
            && Timers(g.objects[g.clients[key]]) !! h.running
            && (forall t | t in g.running && t !in Timers(g.objects[g.clients[key]]) :: t in h.running)
            && h.running <= g.running)
      && (forall k | k in g.clients && k != key :: k in h.clients && h.clients[k] == g.clients[k])
      && h.clients.Keys <= g.clients.Keys
  {
  }

  /**
   * A firing of the inactivity interval disconnects (keeping the session)
   * exactly when the account is still registered and the client it watches
   * has been idle for strictly more than two days; it stops itself and the
   * memory logger it was started with when the account is gone or evicted,
   * and otherwise changes nothing.
   */
  lemma TickEvictsExactlyIdleClients(g: Registry, checker: TimerId, now: int, destroy: Attempt)
    requires Closed(g) && checker in g.checkers && g.checkers[checker].client in g.objects
    ensures var (h, out) := Tick(g, checker, now, destroy);
      var ch := g.checkers[checker];
      var key := AccountKey(ch.accountType, ch.username);
      var last := g.objects[ch.client].lastActivity;
      && (out.OrphanStopped? <==> key !in g.clients)
      && (out.Evicted? <==> key in g.clients && last.Some? && now - last.value > InactivityTimeout)
      && (out.StillActive? ==> h == g)
      && (!out.StillActive? ==> checker !in h.running && ch.memoryLogger !in h.running && h.artifacts == g.artifacts)
      && (out.OrphanStopped? ==> h.clients == g.clients)
      && (out.Evicted? ==> (key in h.clients <==> destroy.Throws?) && out.reply.status != "not_found")
  {
  }

  /** Two days of inactivity exactly is not enough; one millisecond more is. */
  lemma IdleThresholdIsStrict(t: int)
    ensures !IsIdle(Some(t), t + InactivityTimeout)
    ensures IsIdle(Some(t), t + InactivityTimeout + 1)
    ensures !IsIdle(None, t)
  {
  }

  /**
   * `checkSession` keeps a session folder exactly when the database knows the
   * account, touches no other folder and nothing else, and reports
   * `session_not_found` whenever there is no folder, whatever the database
   * holds.
   */
  lemma ReconcileKeepsKnownFolders(g: Registry, key: string, known: bool)
    ensures var h := Reconcile(g, key, known);
      && h.(artifacts := g.artifacts) == g
      && (key in h.artifacts <==> key in g.artifacts && known)
      && (forall k | k != key :: k in h.artifacts <==> k in g.artifacts)
      && (key !in g.artifacts ==> SessionStatus(key in g.artifacts, known) == "session_not_found")
      && (SessionStatus(key in g.artifacts, known) == "session_invalid" <==> key in g.artifacts && key !in h.artifacts)
  {
  }

  /**
   * `initializeClient` on a full registry refuses a new account and changes
   * nothing. Otherwise the key is registered afterwards exactly when
   * `initialize()` resolves, and then to a brand-new client object with no
   * activity and no intervals; once admitted, the account has a session
   * folder whether or not `initialize()` resolves (the authentication
   * strategy creates it before the browser starts); the client
   * previously registered under the key has its intervals stopped; every
   * other key keeps its client; and at most one QR notice is produced.
   */
  lemma InitializeRegistersOnSuccess(g: Registry, maxClients: nat, accountType: string, username: string,
                                     teardown: Attempt, init: Attempt, qrs: seq<JsValue>, rendered: Option<string>)
    requires Consistent(g, maxClients)
    ensures var key := AccountKey(accountType, username);
      var h := Initialize(g, maxClients, accountType, username, teardown, init);
      var r := InitializeReply(g, maxClients, key, init);
      && (!Admitted(g, key, maxClients) <==> r == Some(LimitReply(maxClients)))
      && (!Admitted(g, key, maxClients) ==> h == g && InitializeNotices(g, maxClients, key, qrs, rendered) == [])
      && |InitializeNotices(g, maxClients, key, qrs, rendered)| <= 1
      && (Admitted(g, key, maxClients) ==>
            && (key in h.clients <==> init.Succeeds?)
            && (r.None? <==> init.Succeeds?)
            && (key in g.clients ==> Timers(g.objects[g.clients[key]]) !! h.running)
            && (forall k | k in g.clients && k != key :: k in h.clients && h.clients[k] == g.clients[k])
            && (forall k | k in h.clients && k != key :: k in g.clients))
      && (Admitted(g, key, maxClients) && init.Succeeds? ==>
            && h.clients[key] !in g.objects
            && h.objects[h.clients[key]] == ClientState(accountType, username, None, None, None))
      && (Admitted(g, key, maxClients) ==> key in h.artifacts)
  {
    var key := AccountKey(accountType, username);
    if Admitted(g, key, maxClients) && key in g.clients {
      KeepSessionKeepsFolders(g, key, teardown);
    }
  }

  /** However many accounts are initialized, the registry never holds more than MAX_CONCURRENT_CLIENTS clients. */
  lemma {:induction false} RegistryStaysCapped(g: Registry, maxClients: nat, accounts: seq<(string, string)>,
                                               teardowns: seq<Attempt>, inits: seq<Attempt>)
    requires Consistent(g, maxClients)
    requires |teardowns| == |accounts| && |inits| == |accounts|
    ensures var h := InitializeAll(g, maxClients, accounts, teardowns, inits);
      Consistent(h, maxClients) && |h.clients| <= maxClients
    decreases |accounts|
  {
    if accounts != [] {
      InitializeKeepsConsistent(g, maxClients, accounts[0].0, accounts[0].1, teardowns[0], inits[0]);
      RegistryStaysCapped(Initialize(g, maxClients, accounts[0].0, accounts[0].1, teardowns[0], inits[0]),
                          maxClients, accounts[1..], teardowns[1..], inits[1..]);
    }
  }

  /** A run of `initializeClient` calls, one per (account_type, username). */
  function InitializeAll(g: Registry, maxClients: nat, accounts: seq<(string, string)>,
                         teardowns: seq<Attempt>, inits: seq<Attempt>): Registry
    requires Consistent(g, maxClients)
    requires |teardowns| == |accounts| && |inits| == |accounts|
    decreases |accounts|
  {
    if accounts == [] then g
    else
      InitializeKeepsConsistent(g, maxClients, accounts[0].0, accounts[0].1, teardowns[0], inits[0]);
      InitializeAll(Initialize(g, maxClients, accounts[0].0, accounts[0].1, teardowns[0], inits[0]),
                    maxClients, accounts[1..], teardowns[1..], inits[1..])
  }

  /**
   * The `disconnected` handler stops the inactivity checker but leaves the
   * memory logger running, keeps the session folders, and unregisters the
   * key exactly when `destroy()` resolves.
   */
  lemma DisconnectedLeavesMemoryLogger(g: Registry, c: ClientId, destroy: Attempt)
    requires c in g.objects
    ensures var h := Disconnected(g, c, destroy);
      var s := g.objects[c];
      var key := AccountKey(s.accountType, s.username);
      && h.artifacts == g.artifacts && h.objects == g.objects
      && (s.inactivityChecker.Some? ==> s.inactivityChecker.value !in h.running)
      && (var logger := s.memoryLogger;
          logger.Some? && logger.value in g.running && s.inactivityChecker != logger ==> logger.value in h.running)
      && (key in h.clients <==> key in g.clients && destroy.Throws?)
  {
  }

  /** After an authentication failure the session folder is deleted exactly when three re-initializations in a row fail. */
  lemma AuthFailureWipesAfterThreeFailures(g: Registry, c: ClientId, attempts: seq<Attempt>)
    requires c in g.objects && |attempts| >= MaxAuthRetries
    ensures var h := AuthFailed(g, c, attempts);
      var key := AccountKey(g.objects[c].accountType, g.objects[c].username);
      && h.(artifacts := g.artifacts) == g
      && (key !in h.artifacts <==> key !in g.artifacts || (attempts[0].Throws? && attempts[1].Throws? && attempts[2].Throws?))
  {
  }

  /**
   * `disconnectClient` on a registered key stops the client's intervals and,
   * when `destroy()` resolves, removes both the key and its session folder
   * and nothing else; when `destroy()` throws, the key and the folder stay.
   * An unregistered key changes nothing.
   */
  lemma DisconnectRemovesKeyAndFolder(g: Registry, key: string, destroy: Attempt)
    requires Closed(g)
    ensures var h := Disconnect(g, key, destroy);
      && h.objects == g.objects
      && (key !in g.clients ==> h == g)
      && (key in g.clients ==>
            && Timers(g.objects[g.clients[key]]) !! h.running
            && (destroy.Succeeds? ==> key !in h.clients && key !in h.artifacts)
            && (destroy.Throws? ==> h.clients == g.clients && h.artifacts == g.artifacts))
      && (forall k | k != key :: (k in h.artifacts <==> k in g.artifacts))
      && (forall k | k in g.clients && k != key :: k in h.clients && h.clients[k] == g.clients[k])
  {
  }

  /**
   * `handleClientLifecycle`: with act 'valid' and a valid session the client
   * starts on the existing session folder, which is kept; with act
   * 'invalid' or without a valid session the folder is deleted first and
   * recreated by the new client, so afterwards it exists exactly when the
   * client was admitted, even if `initialize()` throws; an unhandled
   * combination changes nothing.
   */
  lemma LifecycleWipesOnlyForFreshStart(g: Registry, maxClients: nat, act: string, accountType: string, username: string,
                                        known: bool, teardown: Attempt, init: Attempt)
    requires Consistent(g, maxClients)
    ensures var key := AccountKey(accountType, username);
      var plan := LifecyclePlanFor(act, SessionStatus(key in g.artifacts, known));
      var h := Lifecycle(g, maxClients, act, accountType, username, known, teardown, init);
      && (plan == Unhandled ==> h == g)
      && (plan == StartWithSession ==> key in h.artifacts)
      && (plan == StartFresh ==> (key in h.artifacts <==> Admitted(g, key, maxClients)))
      && (plan != Unhandled && Admitted(g, key, maxClients) ==> (key in h.clients <==> init.Succeeds?))
  {
    var key := AccountKey(accountType, username);
    PreparedKeepsClients(g, act, key, known);
    InitializeFolders(Prepared(g, act, key, known), maxClients, accountType, username, teardown, init);
  }

  /** `initializeClient` is the admission check, then the teardown of a registered client, then the registration. */
  lemma InitializeSteps(g: Registry, maxClients: nat, accountType: string, username: string,
                        teardown: Attempt, init: Attempt, qrs: seq<JsValue>, rendered: Option<string>)
    requires Closed(g)
    ensures var key := AccountKey(accountType, username);
      var h := Initialize(g, maxClients, accountType, username, teardown, init);
      && (!Admitted(g, key, maxClients) ==>
            h == g && InitializeReply(g, maxClients, key, init) == Some(LimitReply(maxClients))
            && InitializeNotices(g, maxClients, key, qrs, rendered) == [])
      && (Admitted(g, key, maxClients) ==>
            && h == Register(if key in g.clients then KeepSession(g, key, teardown) else g, accountType, username, init)
            && InitializeReply(g, maxClients, key, init) == InitOutcome(init)
            && InitializeNotices(g, maxClients, key, qrs, rendered) == QrNotices(qrs, rendered))
  {
  }

  /** `handleClientLifecycle` is `checkSession`, then, for a handled plan, the preparation and `initializeClient`. */
  lemma LifecycleSteps(g: Registry, maxClients: nat, act: string, accountType: string, username: string,
                       known: bool, teardown: Attempt, init: Attempt)
    requires Closed(g)
    ensures var key := AccountKey(accountType, username);
      var plan := LifecyclePlanFor(act, SessionStatus(key in g.artifacts, known));
      var g1 := Reconcile(g, key, known);
      && Prepared(g, act, key, known) == (if plan == StartFresh && key in g1.artifacts then g1.(artifacts := g1.artifacts - {key}) else g1)
      && (plan == Unhandled ==>
            && Lifecycle(g, maxClients, act, accountType, username, known, teardown, init) == g1
            && LifecycleReply(g, maxClients, act, key, known, init) == Some(Reply("unknown_error", "Unhandled session state.")))
      && (plan != Unhandled ==>
            && Lifecycle(g, maxClients, act, accountType, username, known, teardown, init)
                 == Initialize(Prepared(g, act, key, known), maxClients, accountType, username, teardown, init)
            && LifecycleReply(g, maxClients, act, key, known, init)
                 == InitializeReply(Prepared(g, act, key, known), maxClients, key, init))
  {
  }

  /** The notices of `handleClientLifecycle` are those of `initializeClient` on the prepared registry, or none. */
  lemma LifecycleNoticesSteps(g: Registry, maxClients: nat, act: string, key: string, known: bool,
                              qrs: seq<JsValue>, rendered: Option<string>)
    ensures var plan := LifecyclePlanFor(act, SessionStatus(key in g.artifacts, known));
      LifecycleNotices(g, maxClients, act, key, known, qrs, rendered)
        == if plan == Unhandled then [] else InitializeNotices(Prepared(g, act, key, known), maxClients, key, qrs, rendered)
  {
  }

  /** The preparation step of `handleClientLifecycle` touches only the session folder of the account. */
  lemma PreparedKeepsClients(g: Registry, act: string, key: string, known: bool)
    ensures var p := Prepared(g, act, key, known);
      var plan := LifecyclePlanFor(act, SessionStatus(key in g.artifacts, known));
      && p.clients == g.clients && p.objects == g.objects
      && (plan == StartWithSession ==> p == g)
      && (plan == StartFresh ==> key !in p.artifacts)
      && (plan == Unhandled ==> Reconcile(g, key, known) == g)
  {
  }

  /**
   * After `initializeClient` the account has a session folder exactly when
   * it had one or was admitted (whether or not `initialize()` resolves,
   * since the folder is created before the browser starts); once admitted, its key is
   * registered exactly when `initialize()` resolves.
   */
  lemma InitializeFolders(g: Registry, maxClients: nat, accountType: string, username: string,
                          teardown: Attempt, init: Attempt)
    requires Closed(g)
    ensures var key := AccountKey(accountType, username);
      var h := Initialize(g, maxClients, accountType, username, teardown, init);
      && (key in h.artifacts <==> key in g.artifacts || Admitted(g, key, maxClients))
      && (Admitted(g, key, maxClients) ==> (key in h.clients <==> init.Succeeds?))
  {
    var key := AccountKey(accountType, username);
    if Admitted(g, key, maxClients) && key in g.clients {
      KeepSessionKeepsFolders(g, key, teardown);
    }
  }

  /**
   * `reconnectClient` leaves a registered account alone, refuses an account
   * without a database row, and otherwise is `initializeClient`.
   */
  lemma ReconnectOnlyUnregisteredKnown(g: Registry, maxClients: nat, accountType: string, username: string,
                                       known: bool, teardown: Attempt, init: Attempt)
    requires Closed(g)
    ensures var key := AccountKey(accountType, username);
      var h := Reconnect(g, maxClients, accountType, username, known, teardown, init);
      var r := ReconnectReply(g, maxClients, key, known, init);
      && (key in g.clients ==> h == g && r.Some? && r.value.status == "already_connected")
      && (key !in g.clients && !known ==> h == g && r.Some? && r.value.status == "session_not_found")
      && (key !in g.clients && known ==>
            h == Initialize(g, maxClients, accountType, username, teardown, init) && r == InitializeReply(g, maxClients, key, init))
  {
  }

  // ---------------------------------------------------------------------------
  // The session manager

  class SessionManager {
    /** MAX_CONCURRENT_CLIENTS */
    const maxClients: nat
    /** The sessions table. */
    const db: SessionTable
    /** `clients`: the registered client of each account key. */
    var clients: map<string, ClientId>
    /** Every driver client created so far, by identity. */
    var objects: map<ClientId, ClientState>
    var nextClient: ClientId
    /** The account keys that have a session folder under `.wwebjs_auth`. */
    var artifacts: set<string>
    /** The intervals that are still scheduled. */
    var running: set<TimerId>
    /** The inactivity intervals, with what each closes over. */
    var checkers: map<TimerId, Checker>
    var nextTimer: TimerId

    function Snapshot(): Registry
      reads this
    {
      Registry(clients, objects, nextClient, artifacts, running, checkers, nextTimer)
    }

    ghost predicate Valid()
      reads this
    {
      Consistent(Snapshot(), maxClients)
    }

    constructor (maxClients: nat, db: SessionTable, artifacts: set<string>)
      ensures this.maxClients == maxClients && this.db == db
      ensures Snapshot() == Registry(map[], map[], 0, artifacts, {}, map[], 0)
      ensures Valid()
    {
      this.maxClients := maxClients;
      this.db := db;
      this.artifacts := artifacts;
      clients := map[];
      objects := map[];
      nextClient := 0;
      running := {};
      checkers := map[];
      nextTimer := 0;
    }

    /** `updateClientActivity`: stamps the registered client of the account and reports whether there is one. */
    method UpdateClientActivity(accountType: string, username: string, now: int) returns (found: bool)
      requires Valid()
      modifies this`objects
      ensures Valid()
      ensures found == (AccountKey(accountType, username) in clients)
      ensures Snapshot() == Stamp(old(Snapshot()), AccountKey(accountType, username), now)
    {
      var key := AccountKey(accountType, username);
      ghost var g0 := Snapshot();
      StampKeepsConsistent(g0, maxClients, key, now);
      found := key in clients;
      if found {
        var c := clients[key];
        objects := objects[c := objects[c].(lastActivity := Some(now))];
      }
      assert Snapshot() == Stamp(g0, key, now);
    }

    /** `trackClientActivity` */
    method TrackClientActivity(accountType: string, username: string, now: int)
      requires Valid()
      modifies this`objects, this`running, this`checkers, this`nextTimer
      ensures Valid()
      ensures Snapshot() == Track(old(Snapshot()), accountType, username, now)
    {
      ghost var g0 := Snapshot();
      TrackKeepsConsistent(g0, maxClients, accountType, username, now);
      var key := AccountKey(accountType, username);
      if key !in clients {
        return;
      }
      var c, logger, checker := clients[key], nextTimer, nextTimer + 1;
      nextTimer := nextTimer + 2;
      running := running + {logger, checker};
      objects := objects[c := objects[c].(lastActivity := Some(now),
                                          memoryLogger := Some(logger),
                                          inactivityChecker := Some(checker))];
      checkers := checkers[checker := Checker(accountType, username, c, logger)];
      assert Snapshot() == Track(g0, accountType, username, now);
    }

    /** `disconnectClientButKeepSession`; the session folders and the database are not in its frame. */
    method DisconnectClientButKeepSession(accountType: string, username: string, destroy: Attempt) returns (r: Reply)
      requires Valid()
      modifies this`clients, this`running
      ensures Valid()
      ensures var key := AccountKey(accountType, username);
        && Snapshot() == KeepSession(old(Snapshot()), key, destroy)
        && r == KeepSessionReply(key, key in old(clients), destroy)
    {
      var key := AccountKey(accountType, username);
      ghost var g0 := Snapshot();
      KeepSessionKeepsConsistent(g0, maxClients, key, destroy);
      if key !in clients {
        return KeepSessionReply(key, false, destroy);
      }
      running := running - Timers(objects[clients[key]]);
      if destroy.Throws? {
        assert Snapshot() == KeepSession(g0, key, destroy);
        return KeepSessionReply(key, true, destroy);
      }
      clients := clients - {key};
      assert Snapshot() == KeepSession(g0, key, destroy);
      r := KeepSessionReply(key, true, destroy);
    }

    /** One firing of the inactivity interval `checker`. */
    method InactivityTick(checker: TimerId, now: int, destroy: Attempt) returns (outcome: TickOutcome)
      requires Valid() && checker in checkers
      modifies this`clients, this`running
      ensures Valid()
      ensures (Snapshot(), outcome) == Tick(old(Snapshot()), checker, now, destroy)
    {
      ghost var g0 := Snapshot();
      TickKeepsConsistent(g0, maxClients, checker, now, destroy);
      var ch := checkers[checker];
      var key := AccountKey(ch.accountType, ch.username);
      if key !in clients {
        running := running - {checker, ch.memoryLogger};
        assert Snapshot() == Tick(g0, checker, now, destroy).0;
        return OrphanStopped;
      }
      if IsIdle(objects[ch.client].lastActivity, now) {
        running := running - {checker, ch.memoryLogger};
        var reply := DisconnectClientButKeepSession(ch.accountType, ch.username, destroy);
        outcome := Evicted(reply);
      } else {
        outcome := StillActive;
      }
      assert Snapshot() == Tick(g0, checker, now, destroy).0;
    }

    /** `checkSession` */
    method CheckSession(accountType: string, username: string, dbOk: bool) returns (status: string)
      requires Valid()
      modifies this`artifacts
      ensures Valid()
      ensures var key := AccountKey(accountType, username);
        var known := dbOk && db.HasRecord(accountType, username);
        && status == SessionStatus(key in old(artifacts), known)
        && Snapshot() == Reconcile(old(Snapshot()), key, known)
    {
      var key := AccountKey(accountType, username);
      ghost var g0 := Snapshot();
      ghost var known := dbOk && db.HasRecord(accountType, username);
      if key in artifacts {
        var account := db.CheckAccountInDatabase(accountType, username, dbOk);
        if account.None? {
          artifacts := artifacts - {key};
          status := "session_invalid";
        } else {
          status := "session_valid";
        }
      } else {
        status := "session_not_found";
      }
      assert Snapshot() == Reconcile(g0, key, known);
    }

    /** `initializeClient`; `teardown` is the old client's `destroy()`, `init` the new client's `initialize()`. */
    method InitializeClient(accountType: string, username: string, teardown: Attempt, init: Attempt,
                            qrs: seq<JsValue>, rendered: Option<string>)
      returns (r: Option<Reply>, notices: seq<Notice>)
      requires Valid()
      modifies this`clients, this`objects, this`nextClient, this`running, this`artifacts
      ensures Valid()
      ensures var key := AccountKey(accountType, username);
        && Snapshot() == Initialize(old(Snapshot()), maxClients, accountType, username, teardown, init)
        && r == InitializeReply(old(Snapshot()), maxClients, key, init)
        && notices == InitializeNotices(old(Snapshot()), maxClients, key, qrs, rendered)
    {
      var key := AccountKey(accountType, username);
      ghost var g0 := Snapshot();
      InitializeSteps(g0, maxClients, accountType, username, teardown, init, qrs, rendered);
      if |clients| >= maxClients && key !in clients {
        return Some(LimitReply(maxClients)), [];
      }
      if key in clients {
        KeepSessionKeepsConsistent(g0, maxClients, key, teardown);
        var _ := DisconnectClientButKeepSession(accountType, username, teardown);
      }
      assert Snapshot() == if key in g0.clients then KeepSession(g0, key, teardown) else g0;
      notices := ForwardQrCodes(qrs, rendered);
      r := RegisterInitialized(accountType, username, init);
      assert Snapshot() == Initialize(g0, maxClients, accountType, username, teardown, init);
    }

    /** The end of `initializeClient`, once `initialize()` has resolved or thrown. */
    method RegisterInitialized(accountType: string, username: string, init: Attempt) returns (r: Option<Reply>)
      requires Valid() && Admitted(Snapshot(), AccountKey(accountType, username), maxClients)
      modifies this`clients, this`objects, this`nextClient, this`artifacts
      ensures Valid()
      ensures Snapshot() == Register(old(Snapshot()), accountType, username, init)
      ensures r == InitOutcome(init)
    {
      ghost var g0 := Snapshot();
      RegisterKeepsConsistent(g0, maxClients, accountType, username, init);
      var key := AccountKey(accountType, username);
      artifacts := artifacts + {key};
      if init.Throws? {
        clients := clients - {key};
        assert Snapshot() == Register(g0, accountType, username, init);
        return InitOutcome(init);
      }
      var c := nextClient;
      nextClient := nextClient + 1;
      objects := objects[c := ClientState(accountType, username, None, None, None)];
      clients := clients[key := c];
      assert Snapshot() == Register(g0, accountType, username, init);
      r := None;
    }

    /**
     * The `ready` handler: saves the account (with the number the driver
     * reports) to the database, starts activity tracking, and tells the
     * caller whether the save succeeded.
     */
    method OnReady(accountType: string, username: string, whatsappNumber: string, dbOk: bool, now: int)
      returns (notice: Notice)
      requires Valid()
      modifies db, this`objects, this`running, this`checkers, this`nextTimer
      ensures Valid()
      ensures Snapshot() == Track(old(Snapshot()), accountType, username, now)
      ensures db.rows == if dbOk then Upsert(old(db.rows), username, accountType, whatsappNumber) else old(db.rows)
      ensures notice.status == (if dbOk then "client_ready" else "client_ready_failed")
      ensures notice.number == (if dbOk then Some(whatsappNumber) else None)
    {
      var saved := db.SaveSessionToDatabase(accountType, username, whatsappNumber, dbOk);
      TrackClientActivity(accountType, username, now);
      if saved.success {
        notice := Notice("client_ready", "Client berhasil terhubung.", None, Some(whatsappNumber));
      } else {
        notice := Notice("client_ready_failed", "Client berhasil terhubung, tetapi gagal menyimpan sesi.", None, None);
      }
    }

    /**
     * The `disconnected` handler of client `c`: the account's database rows
     * are deleted if the delete takes effect (`dbDeleted`; a timed-out
     * delete is only logged).
     */
    method OnDisconnected(c: ClientId, dbDeleted: bool, destroy: Attempt)
      requires Valid() && c in objects
      modifies db, this`running, this`clients
      ensures Valid()
      ensures Snapshot() == Disconnected(old(Snapshot()), c, destroy)
      ensures db.rows == if dbDeleted then RemovePair(old(db.rows), objects[c].username, objects[c].accountType)
                         else old(db.rows)
    {
      ghost var g0 := Snapshot();
      DisconnectedKeepsConsistent(g0, maxClients, c, destroy);
      var s := objects[c];
      var _ := db.DeleteSessionFromDatabase(s.accountType, s.username, dbDeleted);
      if s.inactivityChecker.Some? {
        running := running - {s.inactivityChecker.value};
      }
      if destroy.Succeeds? {
        clients := clients - {AccountKey(s.accountType, s.username)};
      }
      assert Snapshot() == Disconnected(g0, c, destroy);
    }

    /** The `auth_failure` handler of client `c`; `attempts` are the outcomes of the re-initializations. */
    method OnAuthFailure(c: ClientId, attempts: seq<Attempt>) returns (tries: nat)
      requires Valid() && c in objects && |attempts| >= MaxAuthRetries
      modifies this`artifacts
      ensures Valid()
      ensures 1 <= tries <= MaxAuthRetries
      ensures Snapshot() == AuthFailed(old(Snapshot()), c, attempts)
    {
      var wipe;
      tries, wipe := RetryAuth(attempts);
      if wipe {
        artifacts := artifacts - {AccountKey(objects[c].accountType, objects[c].username)};
      }
    }

    /** `disconnectClient`; the database reply is not looked at. */
    method DisconnectClient(accountType: string, username: string, destroy: Attempt, dbOk: bool) returns (r: Reply)
      requires Valid()
      modifies db, this`clients, this`running, this`artifacts
      ensures Valid()
      ensures var key := AccountKey(accountType, username);
        && Snapshot() == Disconnect(old(Snapshot()), key, destroy)
        && r == DisconnectReply(key, key in old(clients), destroy)
        && db.rows == if key in old(clients) && destroy.Succeeds? && dbOk
                      then RemovePair(old(db.rows), username, accountType) else old(db.rows)
    {
      var key := AccountKey(accountType, username);
      ghost var g0 := Snapshot();
      DisconnectKeepsConsistent(g0, maxClients, key, destroy);
      if key !in clients {
        return DisconnectReply(key, false, destroy);
      }
      running := running - Timers(objects[clients[key]]);
      if destroy.Throws? {
        assert Snapshot() == Disconnect(g0, key, destroy);
        return DisconnectReply(key, true, destroy);
      }
      if key in artifacts {
        artifacts := artifacts - {key};
      }
      var _ := db.DeleteSessionFromDatabase(accountType, username, dbOk);
      clients := clients - {key};
      assert Snapshot() == Disconnect(g0, key, destroy);
      r := DisconnectReply(key, true, destroy);
    }

    /** `handleClientLifecycle(act, …)` */
    method HandleClientLifecycle(act: string, accountType: string, username: string, dbOk: bool,
                                 teardown: Attempt, init: Attempt, qrs: seq<JsValue>, rendered: Option<string>)
      returns (r: Option<Reply>, notices: seq<Notice>)
      requires Valid()
      modifies this`clients, this`objects, this`nextClient, this`running, this`artifacts
      ensures Valid()
      ensures var key := AccountKey(accountType, username);
        var known := dbOk && db.HasRecord(accountType, username);
        && Snapshot() == Lifecycle(old(Snapshot()), maxClients, act, accountType, username, known, teardown, init)
        && r == LifecycleReply(old(Snapshot()), maxClients, act, key, known, init)
        && notices == LifecycleNotices(old(Snapshot()), maxClients, act, key, known, qrs, rendered)
    {
      var key := AccountKey(accountType, username);
      ghost var g0 := Snapshot();
      ghost var known := dbOk && db.HasRecord(accountType, username);
      var status := CheckSession(accountType, username, dbOk);
      var plan := LifecyclePlanFor(act, status);
      LifecycleSteps(g0, maxClients, act, accountType, username, known, teardown, init);
      LifecycleNoticesSteps(g0, maxClients, act, key, known, qrs, rendered);
      if plan == StartWithSession {
        r, notices := InitializeClient(accountType, username, teardown, init, qrs, rendered);
      } else if plan == StartFresh {
        if key in artifacts {
          artifacts := artifacts - {key};
        }
        r, notices := InitializeClient(accountType, username, teardown, init, qrs, rendered);
      } else {
        r, notices := Some(Reply("unknown_error", "Unhandled session state.")), [];
      }
    }

    /** `reconnectClient` */
    method ReconnectClient(accountType: string, username: string, dbOk: bool,
                           teardown: Attempt, init: Attempt, qrs: seq<JsValue>, rendered: Option<string>)
      returns (r: Option<Reply>, notices: seq<Notice>)
      requires Valid()
      modifies this`clients, this`objects, this`nextClient, this`running, this`artifacts
      ensures Valid()
      ensures var key := AccountKey(accountType, username);
        var known := dbOk && db.HasRecord(accountType, username);
        && Snapshot() == Reconnect(old(Snapshot()), maxClients, accountType, username, known, teardown, init)
        && r == ReconnectReply(old(Snapshot()), maxClients, key, known, init)
        && notices == if key !in old(clients) && known then InitializeNotices(old(Snapshot()), maxClients, key, qrs, rendered) else []
    {
      var key := AccountKey(accountType, username);
      if key in clients {
        return Some(Reply("already_connected", "Client sudah terhubung")), [];
      }
      var account := db.CheckAccountInDatabase(accountType, username, dbOk);
      if account.None? {
        return Some(Reply("session_not_found", "Session tidak ditemukan")), [];
      }
      r, notices := InitializeClient(accountType, username, teardown, init, qrs, rendered);
    }

    /** `checkClientConnection`: a registered client is stamped before it is probed. */
    method CheckClientConnection(accountType: string, username: string, dbOk: bool, probe: Probe, now: int)
      returns (report: ConnectionReport)
      requires Valid()
      modifies this`objects
      ensures Valid()
      ensures var key := AccountKey(accountType, username);
        && report == ConnectionReportFor(key in clients, dbOk && db.HasRecord(accountType, username), probe)
        && Snapshot() == Stamp(old(Snapshot()), key, now)
    {
      var key := AccountKey(accountType, username);
      if key !in clients {
        var account := db.CheckAccountInDatabase(accountType, username, dbOk);
        return ConnectionReportFor(false, account.Some?, probe);
      }
      var _ := UpdateClientActivity(accountType, username, now);
      report := ConnectionReportFor(true, dbOk && db.HasRecord(accountType, username), probe);
    }

    /** `sendMessage`; `send` is how the send (raced against a 10 s timeout) ends. */
    method SendMessage(accountType: string, username: string, number: string, message: string, now: int, send: Attempt)
      returns (r: Reply, chatId: Option<string>)
      requires Valid()
      modifies this`objects
      ensures Valid()
      ensures var key := AccountKey(accountType, username);
        && Snapshot() == Stamp(old(Snapshot()), key, now)
        && (key !in clients ==> r == Reply("error_client", "Client for " + key + " not found") && chatId == None)
        && (key in clients ==>
              && chatId == Some(number + "@c.us")
              && r == if send.Succeeds? then Reply("success", "Pesan terkirim") else SendFailure(send.message))
    {
      var key := AccountKey(accountType, username);
      if key !in clients {
        return Reply("error_client", "Client for " + key + " not found"), None;
      }
      var _ := UpdateClientActivity(accountType, username, now);
      chatId := Some(number + "@c.us");
      if send.Succeeds? {
        r := Reply("success", "Pesan terkirim");
      } else {
        r := SendFailure(send.message);
      }
    }

    /** `sendMessageMedia`: it does not stamp the client; a failed download or send is rethrown. */
    method SendMessageMedia(accountType: string, username: string, number: string, message: string,
                            typeProject: string, fileUrl: string, fileName: string,
                            download: Download, urlBaseName: string, send: Attempt)
      returns (r: MediaResult, attempted: Option<MediaMessage>)
      ensures var key := AccountKey(accountType, username);
        var media := MediaToSend(number, message, typeProject, fileUrl, fileName, download, urlBaseName);
        && (key !in clients ==>
              r == MediaReply(Reply("error_client", "Client for " + key + " not found")) && attempted == None)
        && (key in clients ==> attempted == media)
        && (r == MediaReply(Reply("success", "Media terkirim")) <==> key in clients && media.Some? && send.Succeeds?)
        && (key in clients && media.None? ==> r == MediaThrows(DownloadFailure(typeProject, download)))
        && (key in clients && media.Some? && send.Throws? ==> r == MediaThrows(send.message))
    {
      var key := AccountKey(accountType, username);
      if key !in clients {
        return MediaReply(Reply("error_client", "Client for " + key + " not found")), None;
      }
      attempted := MediaToSend(number, message, typeProject, fileUrl, fileName, download, urlBaseName);
      if attempted.None? {
        r := MediaThrows(DownloadFailure(typeProject, download));
      } else if send.Throws? {
        r := MediaThrows(send.message);
      } else {
        r := MediaReply(Reply("success", "Media terkirim"));
      }
    }

    /** `createGroup`; `None` stands for a `participants` value that is not an array. */
    method CreateGroup(accountType: string, username: string, groupName: string,
                       participants: Option<seq<string>>, creation: GroupCreation)
      returns (r: GroupReply, requested: Option<seq<string>>)
      ensures var key := AccountKey(accountType, username);
        var accepted := key in clients && participants.Some? && |participants.value| >= 2;
        && (requested.Some? <==> accepted)
        && (accepted ==> requested == Some(ContactIds(participants.value)))
        && (r.status == "success" <==> accepted && creation.Created?)
        && (r.status == "success" ==> r.groupId == Some(creation.gid) && r.message == "Grup '" + groupName + "' berhasil dibuat")
        && (r.status != "success" ==> r.status == "error" && r.groupId == None)
        && (key in clients && !accepted ==> r.message == "Minimal 2 peserta diperlukan untuk membuat grup")
    {
      var key := AccountKey(accountType, username);
      requested := None;
      if key !in clients {
        return GroupReply("error", "Client for " + key + " not found", None), None;
      }
      if participants.None? || |participants.value| < 2 {
        return GroupReply("error", "Minimal 2 peserta diperlukan untuk membuat grup", None), None;
      }
      requested := Some(ContactIds(participants.value));
      if creation.Created? {
        r := GroupReply("success", "Grup '" + groupName + "' berhasil dibuat", Some(creation.gid));
      } else {
        r := GroupReply("error", "Gagal membuat grup", None);
      }
    }

    /** `sendMessageToGroup`: the chat id is `groupId` as given; a missing client or a failed send throws. */
    method SendMessageToGroup(accountType: string, username: string, groupId: string, send: Attempt)
      returns (r: Attempt, chatId: Option<string>)
      ensures var key := AccountKey(accountType, username);
        && (key !in clients ==> r == Throws("Client for " + key + " not found") && chatId == None)
        && (key in clients ==> r == send && chatId == Some(groupId))
    {
      var key := AccountKey(accountType, username);
      if key !in clients {
        return Throws("Client for " + key + " not found"), None;
      }
      chatId := Some(groupId);
      r := send;
    }

    /** `inviteToGroup`; `invite` is how the invitation (raced against a 15 s timeout) ends. */
    method InviteToGroup(accountType: string, username: string, groupId: string, participants: seq<string>,
                         now: int, invite: Attempt)
      returns (r: Reply, invited: Option<seq<string>>, request: Option<(string, seq<string>)>)
      requires Valid()
      modifies this`objects
      ensures Valid()
      ensures var key := AccountKey(accountType, username);
        && Snapshot() == Stamp(old(Snapshot()), key, now)
        && (key !in clients ==>
              r == Reply("error", "Client untuk " + key + " tidak ditemukan") && request == None && invited == None)
        && (key in clients ==>
              && request == Some((groupId + "@g.us", ContactIds(participants)))
              && (invite.Succeeds? ==>
                    && r == Reply("success", "Berhasil mengundang " + NatToString(|participants|) + " peserta ke grup")
                    && invited == Some(participants))
              && (invite.Throws? ==> r == InviteFailure(invite.message) && invited == None))
    {
      var key := AccountKey(accountType, username);
      if key !in clients {
        return Reply("error", "Client untuk " + key + " tidak ditemukan"), None, None;
      }
      var _ := UpdateClientActivity(accountType, username, now);
      request := Some((groupId + "@g.us", ContactIds(participants)));
      if invite.Succeeds? {
        r, invited := Reply("success", "Berhasil mengundang " + NatToString(|participants|) + " peserta ke grup"), Some(participants);
      } else {
        r, invited := InviteFailure(invite.message), None;
      }
    }
  }
}
