# WhatsApp session gateway: a verified model

This project models the core of a multi-tenant WhatsApp gateway. The gateway
is a Node.js service that runs one WhatsApp Web client per account, where an
account is a user plus an account type. A websocket API lets dashboards link
an account by QR code, send message batches, manage groups, query chats,
switch an auto-reply assistant on and off, and clean up stale session folders.

The model covers these parts:

- **The session registry** (`SessionRegistry`, over the pure decisions in
  `WaService`). This is the map from the key `${username}-${account_type}` to
  a live client, with its activity stamp and its two interval timers. It also
  holds the session folders on disk and the sessions table. The model covers
  the admission cap, the two teardowns, the idle tick, `checkSession`
  reconciliation, the client lifecycle, reconnection and the connection
  report. It also covers the preconditions of the send and group calls and
  the three-try re-initialization after an authentication failure.
- **The circuit breaker** (`CircuitBreakers`). This is the CLOSED / OPEN /
  HALF-OPEN machine guarding calls to the assistant service, with its lazily
  filled table of breakers.
- **`parseVCard`** (`VCard`), the line-based reader of the FN and TEL
  properties of a vCard (RFC 6350, sections 6.2.1 and 6.4.1).
- **The memory governor** (`CronJobs`). It reads the heap limit from
  NODE_OPTIONS, tests the 80% threshold, picks the two least recently active
  clients and works out the disk use of the session directory.
- **The two single-session `WhatsAppService` classes** (`ServiceWa` for
  `node-api`, `ServiceWaMain` for `whatsapp_services-main`). They keep the
  ready, authenticated and QR flags, the QR and status answers, the webhook
  list and its fan-out, and the saved session under 'default-session'.
- **The sessions table upsert** (`UpdateSession`).
- **The websocket handlers**:
  - checkStatus and the orphaned-folder scan and cleanup (`CheckStatus`);
  - batch sending (`MessagesHandler`);
  - initialize (`InitializeHandler`);
  - groups (`GroupHandler`);
  - chat queries (`ChatHandler`);
  - the assistant switch (`AssistantHandler`).
- **The socket server** (`Websocket`). This is the parameter check, the
  command routing, the connection cap and the heartbeat sweep.

Every call into the WhatsApp Web driver, the database, the file system, the
QR renderer or HTTP is a parameter of the model. Each one is an outcome that
resolves or throws (`Attempt`, `Fetch`, `Probe`, `Download`, `GroupCreation`),
so the model covers every outcome those calls can have. Clock readings are an
explicit `now`, and each timer firing is a method call. A login token is the
decoded claims or nothing, standing for what `checkLogin` returns.

The stateful parts take the source's own form. Each such part is a class
whose methods change its fields: the session manager, the breakers, the two
services, the sessions table, the assistant table and the connection hub. Each
method is proved against a pure specification function of the old state, and
lemmas prove the properties of those functions. The loops of the source
(message batches, folder scans, the webhook fan-out, `parseVCard`,
`validateParams`, the heartbeat and the directory walk) are `for` loops, each
proved equal to a recursive specification.

Where the code's comments and log messages and the code itself differ, the
model follows the code. Four places where the code does not do what its authors evidently
meant are listed under "Findings". Each has both a model of the code as
written and a corrected definition.

## Model

| member | source | states |
|---|---|---|
| WaService.AccountKeyInjective | node-api/services/waService.js:92 | the key `${username}-${account_type}` tells accounts apart when usernames contain no '-' (both directions) |
| WaService.AccountKeyCollision | node-api/services/waService.js:92 | with a '-' in a username two different accounts share one key |
| WaService.HandleQRCode | node-api/services/waService.js:208-221 | the notice is `waiting_for_qr` with the rendered image exactly when the QR is a non-empty string and rendering succeeds; otherwise `qr_error` without an image |
| WaService.ConnectionReportFor | node-api/services/waService.js:532-565 | connected exactly when a registered client answers with `info`; an unregistered account is AUTO_DISCONNECTED (reconnectable) when the database knows it and DISCONNECTED otherwise; a failed probe is ERROR; an empty state reads CONNECTED; the phone number is the id without `@c.us` |
| WaService.PhoneNumberOfSerializedId | node-api/services/waService.js:559 | stripping `@c.us` from `<number>@c.us` gives back the number |
| WaService.SendFailure | node-api/services/waService.js:646-654 | a timed-out send is `error_timeout`, any other failure `error` |
| WaService.ContactIds | node-api/services/waService.js:742 | each number is addressed as `<number>@c.us`, in order |
| WaService.InviteFailure | node-api/services/waService.js:932-946 | a timed-out invitation is `error_timeout`, any other failure `error` |
| WaService.LifecyclePlanFor | node-api/services/waService.js:509-529 | a start on the saved session exactly for act 'valid' with a valid session; a fresh start whenever the session is not valid; the unhandled branch exactly for another act with a valid session |
| WaService.RetryAuth | node-api/services/waService.js:338-368 | at most three re-initializations, stopping at the first that resolves; the session folder is wiped exactly when all three throw |
| WaService.MediaToSend | node-api/services/waService.js:657-722 | pdf and docx send `fileUrl` itself with the named file; "file" is downloaded and sent as a PDF; anything else is downloaded and sent as a JPEG; nothing is sent when a needed download does not complete |
| WaService.DownloadFailure | node-api/services/waService.js:681-689 | a failed download is rethrown with its own message (a cancelled one as a timeout) |
| WaService.KeepSessionReply | node-api/services/waService.js:155-184 | `not_found` exactly without a client, `disconnected` exactly when `destroy()` resolves, and an `error` carrying the message otherwise |
| WaService.LimitReply | node-api/services/waService.js:228-234 | the refusal is `connection_limit_reached` |
| WaService.LimitReplyNamesLimit | node-api/services/waService.js:232 | the refusal message names the configured limit |
| WaService.ForwardQrCodes | node-api/services/waService.js:243-280 | only the first `qr` event produces a notice |
| CircuitBreakers.OpenRejects | node-api/services/waService.js:39-47 | an OPEN breaker that is not yet past `nextAttempt` throws without running the operation and changes nothing |
| CircuitBreakers.TrialAfterTimeout | node-api/services/waService.js:40-60 | past `nextAttempt` an OPEN breaker runs the operation as a HALF-OPEN trial; success closes it with no failures, failure reopens it for another `resetTimeout` |
| CircuitBreakers.FailureCounts | node-api/services/waService.js:56-71 | every failed run adds one failure and stamps its time; the circuit opens exactly when the count reaches `maxFailures` or the run was a trial |
| CircuitBreakers.ClosedSuccessKeepsCount | node-api/services/waService.js:50-55 | a success while CLOSED leaves every field unchanged, so earlier failures are not forgotten |
| CircuitBreakers.StepSettles | node-api/services/waService.js:39-79 | between calls a breaker is never HALF-OPEN, and an OPEN breaker always has a retry time |
| CircuitBreakers.OpenStaysOpenUnderFailures | node-api/services/waService.js:39-71 | an OPEN breaker stays OPEN through any run of calls that all fail |
| CircuitBreakers.ConsecutiveFailuresOpen | node-api/services/waService.js:62-71 | from CLOSED, `maxFailures - failureCount` consecutive failures open the circuit |
| CircuitBreakers.FewFailuresStayClosed | node-api/services/waService.js:62-71 | fewer failures than that keep the circuit CLOSED and count each one |
| CircuitBreakers.CircuitBreaker.constructor | node-api/services/waService.js:29-37 | a new breaker is CLOSED with no failures and no timestamps |
| CircuitBreakers.CircuitBreaker.RecordFailure | node-api/services/waService.js:62-71 | the fields become `AfterFailure` of the old ones: one more failure, stamped now, and OPEN until `now + resetTimeout` once the count reaches `maxFailures` or the call was a trial |
| CircuitBreakers.CircuitBreaker.Reset | node-api/services/waService.js:73-79 | the breaker returns to its initial state |
| CircuitBreakers.CircuitBreaker.Execute | node-api/services/waService.js:39-60 | the new fields and the outcome are one `Step` of the old fields: an OPEN breaker before its retry time throws without running the operation, and the breaker is never left HALF-OPEN |
| CircuitBreakers.BreakerTable.Get | node-api/services/waService.js:83-88 | a known name gets its own breaker back with the table unchanged; an unknown name gets a fresh default breaker (3 failures, 30000 ms), which is added to the table |
| SessionRegistry.StampKeepsConsistent | node-api/services/waService.js:144-153 | stamping activity keeps the registry consistent (registered keys name known clients, fresh ids, at most MAX_CONCURRENT_CLIENTS entries) |
| SessionRegistry.TrackKeepsConsistent | node-api/services/waService.js:91-142 | starting activity tracking keeps the registry consistent |
| SessionRegistry.KeepSessionKeepsConsistent | node-api/services/waService.js:155-184 | the keep-session disconnect keeps the registry consistent and removes one entry exactly when a registered client's `destroy()` resolves |
| SessionRegistry.TickKeepsConsistent | node-api/services/waService.js:115-139 | a firing of the inactivity interval keeps the registry consistent |
| SessionRegistry.RegisterKeepsConsistent | node-api/services/waService.js:370-379 | registering an admitted account's new client keeps the registry consistent |
| SessionRegistry.InitializeKeepsConsistent | node-api/services/waService.js:223-380 | `initializeClient` keeps the registry consistent, the cap included |
| SessionRegistry.DisconnectedKeepsConsistent | node-api/services/waService.js:314-336 | the `disconnected` handler keeps the registry consistent |
| SessionRegistry.DisconnectKeepsConsistent | node-api/services/waService.js:585-620 | `disconnectClient` keeps the registry consistent |
| SessionRegistry.LifecycleKeepsConsistent | node-api/services/waService.js:509-529 | `handleClientLifecycle` keeps the registry consistent |
| SessionRegistry.ReconnectKeepsConsistent | node-api/services/waService.js:873-891 | `reconnectClient` keeps the registry consistent |
| SessionRegistry.StampChangesOnlyActivity | node-api/services/waService.js:144-153 | a registered client's `lastActivity` becomes `now` and nothing else changes; an unregistered key changes nothing |
| SessionRegistry.TrackStartsFreshIntervals | node-api/services/waService.js:91-142 | tracking a registered client starts two intervals not already running and stores them on it; intervals of an earlier call keep running, unreferenced |
| SessionRegistry.KeepSessionKeepsFolders | node-api/services/waService.js:155-184 | session folders and client objects are untouched; an unregistered key changes nothing; otherwise only that client's intervals stop, and its key goes exactly when `destroy()` resolves |
| SessionRegistry.TickEvictsExactlyIdleClients | node-api/services/waService.js:115-139 | a tick disconnects with the session kept exactly when the account is registered and idle for strictly more than two days; it stops itself and its memory logger when the account is gone or evicted, and otherwise changes nothing |
| SessionRegistry.IdleThresholdIsStrict | node-api/services/waService.js:122-123 | exactly two days idle is not idle; one millisecond more is; an unset activity never is |
| SessionRegistry.ReconcileKeepsKnownFolders | node-api/services/waService.js:187-206 | `checkSession` keeps an account's folder exactly when the database knows the account, touches nothing else, and reports `session_not_found` without a folder whatever the database holds |
| SessionRegistry.InitializeRegistersOnSuccess | node-api/services/waService.js:223-380 | on a full registry a new account is refused with nothing changed; otherwise the key is registered afterwards exactly when `initialize()` resolves, to a brand-new client; an admitted account has its session folder afterwards even when `initialize()` throws; the old client's intervals stop; other keys keep their clients; at most one QR notice |
| SessionRegistry.RegistryStaysCapped | node-api/services/waService.js:227-234 | however many accounts are initialized in a row, the registry never holds more than MAX_CONCURRENT_CLIENTS clients |
| SessionRegistry.DisconnectedLeavesMemoryLogger | node-api/services/waService.js:314-336 | the `disconnected` handler stops the inactivity checker but not the memory logger, keeps the folders, and unregisters the key exactly when `destroy()` resolves |
| SessionRegistry.AuthFailureWipesAfterThreeFailures | node-api/services/waService.js:338-368 | the session folder is deleted exactly when three re-initializations in a row throw |
| SessionRegistry.DisconnectRemovesKeyAndFolder | node-api/services/waService.js:585-620 | on a registered key the intervals stop and, when `destroy()` resolves, the key and its folder go and nothing else; when it throws both stay; an unregistered key changes nothing |
| SessionRegistry.LifecycleWipesOnlyForFreshStart | node-api/services/waService.js:509-529 | with act 'valid' and a valid session the folder is kept; with act 'invalid' or no valid session it is deleted first and recreated by the new client, so it exists afterwards exactly when the client was admitted, whether or not `initialize()` resolves; an unhandled combination changes nothing |
| SessionRegistry.PreparedKeepsClients | node-api/services/waService.js:518-524 | the preparation of a fresh start touches only the account's session folder |
| SessionRegistry.InitializeFolders | node-api/services/waService.js:223-380 | after `initializeClient` the account has a folder exactly when it had one or was admitted (the new client creates it before `initialize()` can throw); once admitted, the key is registered exactly when `initialize()` resolves |
| SessionRegistry.ReconnectOnlyUnregisteredKnown | node-api/services/waService.js:873-891 | a registered account is left alone, an account without a database row is refused, and any other is `initializeClient` |
| SessionRegistry.InitOutcome | node-api/services/waService.js:370-379 | no reply exactly when `initialize()` resolves; otherwise `initialization_failed` |
| SessionRegistry.DisconnectReply | node-api/services/waService.js:585-620 | `not_found` exactly without a client, `disconnected` exactly when `destroy()` resolves, `error` otherwise |
| SessionRegistry.SessionManager.constructor | node-api/services/waService.js:15 | an empty registry over the given session folders |
| SessionRegistry.SessionManager.UpdateClientActivity | node-api/services/waService.js:144-153 | reports whether the account has a client, and the new state is `Stamp` of the old: only that client's `lastActivity` changes |
| SessionRegistry.SessionManager.TrackClientActivity | node-api/services/waService.js:91-142 | the new state is `Track` of the old: a registered client gets two fresh running intervals, and the registry stays consistent |
| SessionRegistry.SessionManager.DisconnectClientButKeepSession | node-api/services/waService.js:155-184 | the new state is `KeepSession` of the old and the reply is `KeepSessionReply`: the session folder always stays, and the key goes exactly when `destroy()` resolves |
| SessionRegistry.SessionManager.InactivityTick | node-api/services/waService.js:115-139 | the new state and the outcome are `Tick` of the old state: a registered client idle for more than two days is disconnected with its session kept |
| SessionRegistry.SessionManager.CheckSession | node-api/services/waService.js:187-206 | the status is `SessionStatus` of the folder and the database row, and the new state is `Reconcile` of the old: a folder the database does not know is deleted |
| SessionRegistry.SessionManager.InitializeClient | node-api/services/waService.js:223-380 | the new state, the reply and the QR notices are those `Initialize`, `InitializeReply` and `InitializeNotices` give for the old state |
| SessionRegistry.SessionManager.RegisterInitialized | node-api/services/waService.js:370-379 | the new state is `Register` of the old and the reply is `InitOutcome`: the session folder exists afterwards, and the key names the new client exactly when `initialize()` resolves |
| SessionRegistry.SessionManager.OnReady | node-api/services/waService.js:282-307 | the account is upserted with the reported number when the save succeeds, activity tracking starts, and the notice is `client_ready` with the number or `client_ready_failed` |
| SessionRegistry.SessionManager.OnDisconnected | node-api/services/waService.js:314-336 | the new state is `Disconnected` of the old, which keeps the session folder and stops only the inactivity checker, and the account's rows are deleted when the delete takes effect |
| SessionRegistry.SessionManager.OnAuthFailure | node-api/services/waService.js:338-368 | between one and three tries, and the new state is `AuthFailed` of the old: the session folder goes exactly when all three re-initializations throw |
| SessionRegistry.SessionManager.DisconnectClient | node-api/services/waService.js:585-620 | the new state is `Disconnect` of the old, the reply is `DisconnectReply`, and the database rows of the pair go exactly when a registered client is destroyed and the database answers |
| SessionRegistry.SessionManager.HandleClientLifecycle | node-api/services/waService.js:509-529 | the new state, the reply and the QR notices are `Lifecycle`, `LifecycleReply` and `LifecycleNotices` of the old state: the folder is kept only for act 'valid' on a valid session, and the registry stays consistent |
| SessionRegistry.SessionManager.ReconnectClient | node-api/services/waService.js:873-891 | the new state is `Reconnect` of the old and the reply is `ReconnectReply`: only an unregistered account the database knows is initialized again, and only then are QR notices forwarded, those of `initializeClient` |
| SessionRegistry.SessionManager.CheckClientConnection | node-api/services/waService.js:532-565 | the report is `ConnectionReportFor` the registration, the database row and the probe, and a registered client is stamped |
| SessionRegistry.SessionManager.SendMessage | node-api/services/waService.js:623-655 | without a client, `error_client` and no send; otherwise the client is stamped, the send goes to `<number>@c.us`, and the reply is success or the classified failure |
| SessionRegistry.SessionManager.SendMessageMedia | node-api/services/waService.js:657-728 | without a client, `error_client` and no send; otherwise the `MediaToSend` message is attempted, success exactly when it exists and the send resolves, and a failed download or send is rethrown; activity is not stamped |
| SessionRegistry.SessionManager.CreateGroup | node-api/services/waService.js:730-751 | the driver is asked exactly when the account has a client and at least two participants, with ids `<number>@c.us`; success exactly when it creates the group, with its id; every other answer is `error` |
| SessionRegistry.SessionManager.SendMessageToGroup | node-api/services/waService.js:567-583 | throws `Client for … not found` without a client; otherwise sends to `groupId` as given and rethrows a failed send |
| SessionRegistry.SessionManager.InviteToGroup | node-api/services/waService.js:898-947 | without a client, `error` and no request; otherwise the client is stamped, `<groupId>@g.us` is asked to add the `@c.us` ids, and the reply is success naming the count or the classified failure |
| VCard.TelMatchAt | node-api/services/waService.js:795 | a match of `TEL(:|;.*:)` at a position ends after "TEL:" or after the last ':' before the first line terminator following "TEL;" |
| VCard.TelMatchFrom | node-api/services/waService.js:795 | the leftmost match of `TEL(:|;.*:)` at or after a position, if any |
| VCard.ParseVCard | node-api/services/waService.js:787-800 | the `forEach` over the lines split on '\n' leaves exactly the contact `ParseLines` reads |
| VCard.FnLineIsNotTelLine | node-api/services/waService.js:792-794 | an FN line is never also read as a TEL line |
| VCard.FirstCharacterDecides | node-api/services/waService.js:792-794 | a line not starting with 'T' is no TEL line, one not starting with 'F' no FN line |
| VCard.ParseLinesFields | node-api/services/waService.js:787-800 | the name is the value of the last FN line ("" without one), and the numbers are the values of the TEL lines, one per line, in order |
| VCard.TelValueOfSimpleLine | node-api/services/waService.js:795 | "TEL:" followed by a value yields that value |
| VCard.TelValueOfParameterLine | node-api/services/waService.js:795 | "TEL;params:" followed by a value without ':' yields the value: the greedy `.*` reaches the last ':' |
| VCard.ParseRender | node-api/services/waService.js:787-800 | parsing a rendered vCard 3.0 card (one property per line, fields without line breaks or surrounding blanks) gives back its name and numbers |
| VCard.ParseCardLines | node-api/services/waService.js:791-797 | reading the lines of such a card one by one gives back the contact |
| VCard.ParsedNumbers | node-api/services/waService.js:794-796 | the numbers read from a card are the card's numbers, in order |
| UpdateSession.FindSession | whatsapp_services-main/node-api/services/updateSession.js:11-16 | the first row of the pair, or -1 when no row matches |
| UpdateSession.SaveEstablishesRecord | whatsapp_services-main/node-api/services/updateSession.js:8-33 | after a successful save the pair has a row, found first, with status 'active' and the given number |
| UpdateSession.SaveCreatesNoDuplicate | whatsapp_services-main/node-api/services/updateSession.js:11-32 | saving creates a row only when the pair had none and otherwise keeps the number of rows; every other pair's rows are unchanged |
| UpdateSession.DeleteRemovesPairOnly | whatsapp_services-main/node-api/services/updateSession.js:40-45 | deleting removes every row of the pair and keeps every other pair's rows in order |
| UpdateSession.DeleteUndoesSave | whatsapp_services-main/node-api/services/updateSession.js:8-45 | deleting a pair after saving it leaves the table as deleting it without the save would |
| UpdateSession.LookupIffRecord | whatsapp_services-main/node-api/services/updateSession.js:52-72 | the lookup answers exactly when the pair has a row, reporting that pair as 'terhubung' |
| UpdateSession.SessionTable.SaveSessionToDatabase | whatsapp_services-main/node-api/services/updateSession.js:8-38 | success exactly when the database answers, and then the rows are the upsert of the old rows; a failure changes nothing and is returned, not thrown |
| UpdateSession.SessionTable.DeleteSessionFromDatabase | whatsapp_services-main/node-api/services/updateSession.js:40-50 | success exactly when the database answers, and then every row of the pair is gone; a failure changes nothing and is returned, not thrown |
| UpdateSession.SessionTable.CheckAccountInDatabase | whatsapp_services-main/node-api/services/updateSession.js:52-77 | an answer exactly when the database answers and the pair has a row; null otherwise |
| CronJobs.FlagDigits | node-api/cron-jobs.js:28 | the capture of `/--max-old-space-size=(\d+)/` is a non-empty run of digits |
| CronJobs.HeapLimitIsParsed | node-api/cron-jobs.js:28 | the captured digits are read as `parseInt` reads them |
| CronJobs.HeapLimitOfFlag | node-api/cron-jobs.js:28 | NODE_OPTIONS starting with `--max-old-space-size=N` give the limit N, and no NODE_OPTIONS give 1024 |
| CronJobs.ThresholdIsStrict | node-api/cron-jobs.js:29-32 | exactly 80% of the limit does not trigger eviction and anything above does; a zero limit triggers unless nothing is used |
| CronJobs.Insert | node-api/cron-jobs.js:57-59 | inserting into a list sorted by activity keeps it sorted and adds exactly that entry |
| CronJobs.SortByActivity | node-api/cron-jobs.js:57-59 | the result is sorted oldest first (a missing activity as 0) and is a permutation of the entries |
| CronJobs.DisconnectCount | node-api/cron-jobs.js:62 | at most two and at most the number of clients, and either two or all of them |
| CronJobs.VictimsAreLeastActive | node-api/cron-jobs.js:52-63 | the chosen entries are `min(2, n)` entries of the registry, and no other entry is older than any of them; an empty registry gives nobody |
| CronJobs.SplitAccountKey | node-api/cron-jobs.js:65 | the key of an account without '-' splits into `[username, account_type]` |
| CronJobs.EvictionTarget | node-api/cron-jobs.js:65 | as written, the username passed on is the last '-'-separated piece of the key and the account type the piece before it, or 'undefined'; neither contains '-' |
| CronJobs.EvictionTargetSwaps | node-api/cron-jobs.js:64-68 | the key of (type t, user u) is passed on as (type u, user t), which rebuilds the chosen key only when t = u |
| CronJobs.EvictionMissesChosenClient | node-api/cron-jobs.js:64-68 | when the swapped key is not registered, the keep-session disconnect answers `not_found` and changes nothing, so the chosen client stays |
| CronJobs.EvictionTargetExample | node-api/cron-jobs.js:65 | the key "alice-personal" is passed on as type "alice", user "personal" |
| CronJobs.LastIndexOf | node-api/cron-jobs.js:65 | the position of the last occurrence of a character, or -1 when there is none |
| CronJobs.IntendedEvictionTarget | node-api/cron-jobs.js:64-68 | corrected, a key with a '-' is split at its last '-' into a type without '-' and a username that rebuild exactly that key; a key without '-' is taken as the username, with type 'undefined' |
| CronJobs.IntendedEvictionTargetRoundTrip | node-api/cron-jobs.js:64-68 | splitting at the last '-' gives back the (type, user) of any key whose type has no '-' |
| CronJobs.IntendedEvictionHitsChosenClient | node-api/cron-jobs.js:64-68 | with that split, evicting a registered client whose `destroy()` resolves unregisters it and keeps its session folder |
| CronJobs.AutoDisconnectInactiveClients | node-api/cron-jobs.js:44-75 | one disconnect per chosen entry, `min(2, n)` of them, oldest first, with the key taken apart as written |
| CronJobs.MonitorMemoryUsage | node-api/cron-jobs.js:14-41 | no disconnect under the threshold; over it, those of `autoDisconnectInactiveClients`, started without waiting |
| CronJobs.CalculateDirSize | node-api/cron-jobs.js:88-109 | the loop's total is `EntryBytes` of the directory: files add their size, subdirectories their own total, and an entry that cannot be examined ends the listing with the total so far |
| CronJobs.ListedBytesBounded | node-api/cron-jobs.js:88-109 | the walk never counts more bytes than the files below the directory hold |
| CronJobs.ListedBytesOfReadable | node-api/cron-jobs.js:88-109 | on a tree where everything can be listed and examined, the walk is the sum of all file sizes at every depth |
| ServiceWa.Start | node-api/services/serviceWA.js:6-22 | headless exactly when WHATSAPP_HEADLESS is "true", a driver client exactly when not headless, and every flag and the webhook list start empty |
| ServiceWa.QrAnswer | node-api/services/serviceWA.js:161-200 | `headless` first, then `authenticated`, then `waiting_for_qr` without a rendered QR, then `qr_ready` with it; success exactly for `qr_ready` |
| ServiceWa.Status | node-api/services/serviceWA.js:203-219 | every flag false in headless mode, otherwise the flags themselves with `hasQR = !!qrCodeBase64` |
| ServiceWa.StatusAgreesWithQrAnswer | node-api/services/serviceWA.js:161-219 | `getQRCode` hands out a QR exactly when `getStatus` reports a QR and no authentication |
| ServiceWa.HeadlessIsPermanent | node-api/services/serviceWA.js:14-21 | a service started headless answers `headless` whatever events follow |
| ServiceWa.BrowserFailureMeansHeadless | node-api/services/serviceWA.js:141-154 | a failed initialization whose message mentions the browser launch switches to headless mode; any other outcome keeps the mode |
| ServiceWa.NoQrAfterReadyOrAuthenticated | node-api/services/serviceWA.js:106-118 | after `ready` or `authenticated` no QR is handed out, and the flag is set |
| ServiceWa.RenderedQrIsOffered | node-api/services/serviceWA.js:68-104 | a rendered QR is offered unless headless or authenticated; a failed render offers nothing |
| ServiceWa.LoggedOutClearsFlags | node-api/services/serviceWA.js:120-132 | `auth_failure` and `disconnected` clear both flags and keep the QR fields |
| ServiceWa.FormatNumberAddsSuffixOnce | node-api/services/serviceWA.js:248 | the formatted number contains `@c.us`, formatting is idempotent, and the number is unchanged exactly when it already contains the suffix |
| ServiceWa.SendMessage | node-api/services/serviceWA.js:232-263 | a message is handed over exactly when there is a ready client and the number is registered, to the formatted number; success exactly when delivered, with its id; every failure carries an error |
| ServiceWa.TimedOutSendFails | node-api/services/serviceWA.js:240-261 | a timed-out send fails with the timeout's message |
| ServiceWa.IndexOfUrl | node-api/services/serviceWA.js:300 | the first position of the URL, or -1 exactly when it is not listed |
| ServiceWa.AddWebhookKeepsListDistinct | node-api/services/serviceWA.js:289-296 | registering answers true exactly for a new URL, which is appended; the list stays free of duplicates |
| ServiceWa.RemoveWebhookKeepsOrder | node-api/services/serviceWA.js:299-307 | on a list without duplicates, unregistering removes exactly that URL, keeps the others in order, and answers true exactly when it was listed |
| ServiceWa.AddThenRemoveWebhook | node-api/services/serviceWA.js:289-307 | unregistering a URL just registered restores the list |
| ServiceWa.FailedUrls | node-api/services/serviceWA.js:313-321 | the failed URLs are listed ones, no more than were posted to |
| ServiceWa.FailedUrlsExact | node-api/services/serviceWA.js:313-321 | a URL is reported failed exactly when its post throws; the loop goes on past a failure |
| ServiceWa.WhatsAppService.constructor | node-api/services/serviceWA.js:6-22 | the fields are `Start` of the environment: headless exactly when WHATSAPP_HEADLESS is "true", no driver client then, every flag cleared and no webhook |
| ServiceWa.WhatsAppService.InitializeSettles | node-api/services/serviceWA.js:140-154 | the fields become `InitializeSettled` of the old ones: a browser-launch failure switches to headless mode for good, any other outcome keeps the mode |
| ServiceWa.WhatsAppService.OnQr | node-api/services/serviceWA.js:68-104 | the fields become `QrReceived` of the old ones: the rendered QR is offered unless headless or authenticated, and a failed render offers none |
| ServiceWa.WhatsAppService.OnReady | node-api/services/serviceWA.js:106-111 | the fields become `Ready` of the old ones: ready, and no QR is offered afterwards |
| ServiceWa.WhatsAppService.OnAuthenticated | node-api/services/serviceWA.js:113-118 | the fields become `Authenticated` of the old ones: authenticated, and no QR is offered afterwards |
| ServiceWa.WhatsAppService.OnAuthFailure | node-api/services/serviceWA.js:120-132 | the fields become `LoggedOut` of the old ones: both flags cleared, the QR fields kept |
| ServiceWa.WhatsAppService.GetQRCode | node-api/services/serviceWA.js:161-200 | the answer is `QrAnswer` of the fields, which hands out a QR exactly when `getStatus` reports one and no authentication |
| ServiceWa.WhatsAppService.GetStatus | node-api/services/serviceWA.js:203-219 | the report is `Status` of the fields: every flag false when headless |
| ServiceWa.WhatsAppService.Send | node-api/services/serviceWA.js:232-263 | the reply and the chat handed to are `SendMessage` of the fields: a message reaches the formatted number exactly when a ready client exists and the number is registered |
| ServiceWa.WhatsAppService.RegisterWebhook | node-api/services/serviceWA.js:289-296 | the list and the answer are `AddWebhook` of the old list; no other field changes and the list stays free of duplicates |
| ServiceWa.WhatsAppService.UnregisterWebhook | node-api/services/serviceWA.js:299-307 | the list and the answer are `RemoveWebhook` of the old list; no other field changes and the list stays free of duplicates |
| ServiceWa.WhatsAppService.SendToWebhooks | node-api/services/serviceWA.js:310-322 | every registered URL is posted to, in order, and the reported failures are exactly the URLs whose post threw |
| ServiceWaMain.Restored | whatsapp_services-main/node-api/services/serviceWA.js:30-43 | the saved session exactly when the lookup succeeds and a row 'default-session' exists; null otherwise, never a throw |
| ServiceWaMain.SaveThenRestore | whatsapp_services-main/node-api/services/serviceWA.js:18-43 | a saved session is what a later restore returns; a second save replaces the first instead of adding a row; no other row changes |
| ServiceWaMain.FailedSaveKeepsEarlierSession | whatsapp_services-main/node-api/services/serviceWA.js:26-28 | a failed write is dropped, so a restore still sees the earlier session |
| ServiceWaMain.QrAnswer | whatsapp_services-main/node-api/services/serviceWA.js:115-146 | `authenticated` first, then `waiting_for_qr` without a rendered QR, then `qr_ready` with it; success exactly for `qr_ready` |
| ServiceWaMain.Status | whatsapp_services-main/node-api/services/serviceWA.js:149-155 | the two flags as they are and `hasQR = !!qrCodeBase64` |
| ServiceWaMain.AuthFailureKeepsReadiness | whatsapp_services-main/node-api/services/serviceWA.js:100-103 | an authentication failure clears only `isAuthenticated`; readiness and the QR stay |
| ServiceWaMain.QrAvailability | whatsapp_services-main/node-api/services/serviceWA.js:62-98 | a failed render clears both QR fields and offers nothing; a rendered QR is offered until authentication; `ready` sets the flag and clears the QR |
| ServiceWaMain.WaSessionTable.SaveSession | whatsapp_services-main/node-api/services/serviceWA.js:18-29 | the rows become `AfterSave` of the old rows: a completed save replaces the 'default-session' row and a failed one changes nothing |
| ServiceWaMain.WaSessionTable.RestoreSession | whatsapp_services-main/node-api/services/serviceWA.js:30-43 | the answer is `Restored` of the rows: the saved session, or null when the lookup fails or no row exists |
| ServiceWaMain.WhatsAppService.constructor | whatsapp_services-main/node-api/services/serviceWA.js:6-13 | every flag and QR field starts cleared, over the given session table |
| ServiceWaMain.WhatsAppService.OnQr | whatsapp_services-main/node-api/services/serviceWA.js:62-83 | the fields become `QrReceived` of the old ones: a rendered QR is offered until authentication, a failed render clears both QR fields |
| ServiceWaMain.WhatsAppService.OnReady | whatsapp_services-main/node-api/services/serviceWA.js:85-90 | the fields become `Ready` of the old ones: ready, with the QR cleared |
| ServiceWaMain.WhatsAppService.OnAuthenticated | whatsapp_services-main/node-api/services/serviceWA.js:92-98 | the fields become `Authenticated` of the old ones and the session is upserted under 'default-session', so a later restore returns it |
| ServiceWaMain.WhatsAppService.OnAuthFailure | whatsapp_services-main/node-api/services/serviceWA.js:100-103 | the fields become `AuthFailure` of the old ones: only `isAuthenticated` is cleared |
| ServiceWaMain.WhatsAppService.GetQRCode | whatsapp_services-main/node-api/services/serviceWA.js:115-146 | the answer is `QrAnswer` of the fields: `authenticated` first, then `waiting_for_qr`, then `qr_ready` |
| ServiceWaMain.WhatsAppService.GetStatus | whatsapp_services-main/node-api/services/serviceWA.js:149-155 | the report is `Status` of the fields: the two flags and whether a QR is held |
| WsCommon.PhonePatternIsShortNumeral | node-api/websocket/handlers/MessagesHandler.js:7-10 | a string passes `/^[1-9]\d{1,14}$/` exactly when it has 2 to 15 decimal digits and does not start with 0 |
| WsCommon.NumericPhoneNumber | whatsapp_services-main/node-api/websocket/handlers/groupWAHandler.js:5-8 | a number sent as a JSON number passes exactly when it lies between 10 and 10^15 - 1 |
| WsCommon.NatToStringLength | whatsapp_services-main/node-api/websocket/handlers/groupWAHandler.js:5-8 | a natural number renders with at most k digits exactly when it is below 10^k |
| GroupHandler.InvalidParticipants | whatsapp_services-main/node-api/websocket/handlers/groupWAHandler.js:17 | the filtered list is no longer than the participants |
| GroupHandler.InvalidParticipantsExact | whatsapp_services-main/node-api/websocket/handlers/groupWAHandler.js:17-18 | the filter keeps exactly the participants that fail the phone pattern, so it is empty exactly when every participant passes |
| GroupHandler.Numbers | node-api/services/waService.js:741 | one string per participant, each the participant as a template literal renders it |
| GroupHandler.CreateGroupHandler | whatsapp_services-main/node-api/websocket/handlers/groupWAHandler.js:10-40 | any invalid number stops the command with the invalid list and no group is requested; otherwise the service's reply is forwarded, a group is requested exactly when the account has a client and at least two participants, and the reply is a success carrying the new group's id exactly when the driver created it |
| GroupHandler.RequestedGroupsAreValid | whatsapp_services-main/node-api/websocket/handlers/groupWAHandler.js:17-29 | every contact a group is requested with is `<number>@c.us` for a number that passes the phone pattern |
| GroupHandler.SendMessageToGroupHandler | whatsapp_services-main/node-api/websocket/handlers/groupWAHandler.js:42-64 | the success frame with the group id is sent exactly when the account has a client and the driver's send does not throw; a missing client and a throwing send each give the failure frame with that error |
| GroupHandler.InviteToGroupHandler | whatsapp_services-main/node-api/websocket/handlers/groupWAHandler.js:66-84 | the service's reply is forwarded; it is a success exactly when the account has a client and the invite succeeds, a throwing invite is reported with its message, and the account's activity is stamped |
| CheckStatus.StatusFrameFor | node-api/websocket/handlers/checkStatusHandler.js:8-21 | a token that does not verify sends nothing further; the frame is "connected" exactly when the state is CONNECTED, and then carries the reported number and the token's username |
| CheckStatus.ConnectedOnlyWithClient | node-api/websocket/handlers/checkStatusHandler.js:16-21 | an account with no registered client is always reported "disconnected", and a connected report always carries a phone number |
| CheckStatus.ListOrphanedSessionFolders | node-api/websocket/handlers/checkStatusHandler.js:203-270 | a failing database query yields the error frame, a missing auth folder the not-found frame; otherwise the scan reports the row count, the listing size, and the orphaned and valid folders in listing order |
| CheckStatus.ValidFolders | node-api/websocket/handlers/checkStatusHandler.js:240-250 | the valid folders are no more than the listing |
| CheckStatus.OrphanedFolders | node-api/websocket/handlers/checkStatusHandler.js:240-250 | the orphaned folders are no more than the listing |
| CheckStatus.ScanPartitionsListing | node-api/websocket/handlers/checkStatusHandler.js:240-250 | every listed name is exactly one of skipped (no '-'), valid (a database key) or orphaned (not a key) |
| CheckStatus.ScanCountsWithinTotal | node-api/websocket/handlers/checkStatusHandler.js:253-257 | the orphaned and valid counts together never exceed `totalFolders` |
| CheckStatus.CleanupOrphanedSessionFolders | node-api/websocket/handlers/checkStatusHandler.js:124-201 | the error frame when the query fails, the not-found frame when the auth folder is missing; otherwise the folders removed are exactly the orphans whose removal succeeded, and the report lists the orphans, the deleted and the failed ones |
| CheckStatus.CleanupSplitsOrphans | node-api/websocket/handlers/checkStatusHandler.js:162-181 | each orphan is either deleted or listed with its error, never both; nothing in the database is deleted; when every removal succeeds all orphans are deleted and no error is listed |
| CheckStatus.CleanupSparesKnownAccounts | node-api/websocket/handlers/checkStatusHandler.js:133-138 | the session folder of an account that has a database row is never deleted by the cleanup |
| MessagesHandler.ItemDetail | node-api/websocket/handlers/MessagesHandler.js:51-108 | an item succeeds exactly when it has a number and a message, the number is valid, and either the project is 'text' or it is a media type with a file (or PDF/DOCX mode) and the media send does not throw; an invalid item's detail is 'Nomor atau pesan tidak valid' |
| MessagesHandler.Successes | node-api/websocket/handlers/MessagesHandler.js:86 | the success count never exceeds the number of details |
| MessagesHandler.Details | node-api/websocket/handlers/MessagesHandler.js:51-108 | one detail per message, in order, each the detail of its own item |
| MessagesHandler.SendEach | node-api/websocket/handlers/MessagesHandler.js:51-109 | the loop yields exactly the details of the batch, `totalSuccess` successes and the rest failures, the text of the last valid item, and one progress frame per invalid item |
| MessagesHandler.DetailsStep | node-api/websocket/handlers/MessagesHandler.js:51-109 | one more message extends the details, the success count, the last text and the progress frames by that message alone |
| MessagesHandler.SendMessagesHandler | node-api/websocket/handlers/MessagesHandler.js:14-146 | a disconnected account gets the not-connected frame, with the reconnect message and flag exactly when it was auto-disconnected and can reconnect, and nothing is sent; a `messages` that is not an array, or a `null` element, ends in 'Failed to process messages' with a TypeError after the elements before it are handled; otherwise the summary counts add up to the batch size, and a failing write turns the reply into 'Failed to process messages' with the write's error |
| MessagesHandler.FirstHole | node-api/websocket/handlers/MessagesHandler.js:51-52 | the position of the first `null` or `undefined` element, whose destructuring throws, with every element before it present |
| MessagesHandler.ItemsBefore | node-api/websocket/handlers/MessagesHandler.js:51-52 | the elements the loop handles before it throws, in order |
| MessagesHandler.ModeDecidesSuccess | node-api/websocket/handlers/MessagesHandler.js:75-84 | in text mode an item succeeds exactly when it is valid; in PDF and DOCX mode exactly when it is valid and the media send does not throw; an unknown project type fails every item; a media item without any URL fails outside PDF/DOCX mode |
| MessagesHandler.CountersAddUp | node-api/websocket/handlers/MessagesHandler.js:56-94 | in text mode the successes are the batch size minus the progress frames, that is, every failure is an invalid item |
| MessagesHandler.ProgressRises | node-api/websocket/handlers/MessagesHandler.js:58-66 | the progress counts rise strictly and lie between 1 and the batch size |
| InitializeHandler.StepFor | whatsapp_services-main/node-api/websocket/handlers/initializeHandler.js:26-86 | 'already linked' exactly for a valid session whose state is CONNECTED, 'resume' for a valid session in any other state, 'fresh' exactly for an invalid or missing session |
| InitializeHandler.QrFrames | whatsapp_services-main/node-api/websocket/handlers/initializeHandler.js:46-54 | every QR notice of the lifecycle call is forwarded as one frame, in order |
| InitializeHandler.EveryStatusIsHandled | whatsapp_services-main/node-api/websocket/handlers/initializeHandler.js:58-86 | every status `checkSession` can report takes a handled branch, so 'Status sesi tidak dikenali' is never sent; 'valid' makes `handleClientLifecycle` restart on the saved session and 'invalid' start afresh |
| InitializeHandler.Initialize | whatsapp_services-main/node-api/websocket/handlers/initializeHandler.js:5-97 | a token without username and id gets the authentication-failed frame and changes nothing; otherwise a linked account gets one 'already connected' frame, a valid session the reconnecting frame followed by its QR frames, an invalid or missing one the scan frame followed by its QR frames, and the registry is the lifecycle's result |
| InitializeHandler.ResumeKeepsSessionFolder | node-api/services/waService.js:509-516 | restarting on a valid session keeps the account's session folder, and the account has a client afterwards exactly when it was admitted and `initialize()` succeeded |
| InitializeHandler.FreshStartReplacesSessionFolder | node-api/services/waService.js:518-527 | after a fresh start the account has a session folder exactly when the client was admitted (a refused account keeps none), even if `initialize()` throws; once admitted it is registered exactly when `initialize()` resolves |
| ChatHandler.DaysAgo | whatsapp_services-main/node-api/websocket/handlers/chatHandler.js:14-17 | an omitted `daysAgo` is 2; a given one is accepted exactly when `parseInt` yields a non-negative number, which is then used |
| ChatHandler.Limit | whatsapp_services-main/node-api/websocket/handlers/chatHandler.js:33-36 | an omitted `limit` is 10; a given one is accepted exactly when `parseInt` yields a positive number, which is then used |
| ChatHandler.QueryFor | whatsapp_services-main/node-api/websocket/handlers/chatHandler.js:13-52 | the unreplied query is made exactly for action 'unrepliedMessages' with an accepted `daysAgo`, the history query exactly for 'chatHistory' with a non-empty string target and an accepted limit, each with those arguments |
| ChatHandler.Chat | whatsapp_services-main/node-api/websocket/handlers/chatHandler.js:5-61 | a rejected argument or unknown action gives the failure frame with its own message and no query; the unreplied frame is sent exactly when that query resolves, defaulting its status and falling back to the whole result for `data`; the history frame exactly when the history resolves to a truthy value, which it carries |
| ChatHandler.UnrepliedMessages | whatsapp_services-main/node-api/websocket/handlers/chatHandler.js:64-66 | `unrepliedMessagesHandler` only ever makes the unreplied query and never sends a history frame; it sends the unreplied frame exactly when the query is made and resolves |
| ChatHandler.ChatHistory | whatsapp_services-main/node-api/websocket/handlers/chatHandler.js:68-70 | `chatHistoryWAHandler` only ever makes the history query and never sends an unreplied frame; it sends the history frame exactly when the query is made and resolves to a truthy value |
| ChatHandler.IntArgumentOfNumber | whatsapp_services-main/node-api/websocket/handlers/chatHandler.js:14 | a JSON integer reaches `parseInt` as its decimal rendering and comes back unchanged |
| ChatHandler.UnrepliedArguments | whatsapp_services-main/node-api/websocket/handlers/chatHandler.js:64-66 | `unrepliedMessagesHandler` asks for two days when `daysAgo` is omitted, passes a non-negative number through, and refuses a negative one with 'daysAgo must be a non-negative number' |
| ChatHandler.HistoryDefaults | whatsapp_services-main/node-api/websocket/handlers/chatHandler.js:68-70 | `chatHistoryWAHandler` refuses an empty target, asks for ten messages when the limit is omitted, reports a falsy history (`null`, `undefined`, '' or 0) as 'No chat history found for the given target number', and sends any object it resolves to, an empty array included, as the history |
| ChatHandler.HistoryLimit | whatsapp_services-main/node-api/websocket/handlers/chatHandler.js:33-36 | a positive numeric limit is passed through; zero or a negative one is refused with 'limit must be a positive number' |
| AssistantHandler.Find | node-api/websocket/handlers/assistantHandler.js:56 | the position of the first row with the number, and no row before it has that number; none when no row has it |
| AssistantHandler.WithStatus | node-api/websocket/handlers/assistantHandler.js:66-67 | saving a new status changes that one row's status and nothing else |
| AssistantHandler.Without | node-api/websocket/handlers/assistantHandler.js:101 | destroying a row removes it and keeps every other row in order |
| AssistantHandler.ActivationAsWritten | node-api/websocket/handlers/assistantHandler.js:15-31 | as written, activation succeeds exactly when a row exists under the raw number and the save completes; with no such row it fails with 'nomor is not defined'; a failure leaves the rows as they were, and no row is ever added |
| AssistantHandler.Activation | node-api/websocket/handlers/assistantHandler.js:7-47 | corrected, activation succeeds exactly when the write completes, adds a row exactly when the chat id `<number>@c.us` had none, and on a failing write changes nothing and reports the write's error |
| AssistantHandler.Deactivation | node-api/websocket/handlers/assistantHandler.js:49-82 | deactivation succeeds exactly when the chat id has a row and the save completes; an unknown chat id gives 'Assistant not found.'; a failure changes nothing, and no row is added or removed |
| AssistantHandler.Deletion | node-api/websocket/handlers/assistantHandler.js:84-116 | deletion succeeds exactly when the chat id has a row and the destroy completes, and then exactly one row goes; an unknown chat id gives 'Assistant not found.'; a failure changes nothing |
| AssistantHandler.ActivationAsWrittenFailsOnChatIds | node-api/websocket/handlers/assistantHandler.js:15-31 | with every row keyed by a chat id and a bare number sent, activation always fails with 'nomor is not defined' and never makes the listener answer the chat |
| AssistantHandler.ActivationAsWrittenExample | node-api/websocket/handlers/assistantHandler.js:15-31 | activating '62812' on an empty table fails and leaves the chat unanswered, where the corrected activation makes the listener answer '62812@c.us' |
| AssistantHandler.ActivationAsWrittenOnRawNumber | node-api/websocket/handlers/assistantHandler.js:15-31 | as written, activation succeeds exactly when a row is stored under the raw number and the save completes; that row is then 'aktif', every row of another number is unchanged, no row is ever added, and a failure changes nothing |
| AssistantHandler.ActivationServesChat | node-api/websocket/handlers/assistantHandler.js:7-47 | a completed activation (corrected) makes the listener's 'aktif' lookup find the chat `<number>@c.us`, and no two rows share a number |
| AssistantHandler.DeactivationSilencesChat | node-api/websocket/handlers/assistantHandler.js:49-82 | after a completed deactivation the listener no longer answers the chat, and numbers stay distinct |
| AssistantHandler.DeletionRemovesChat | node-api/websocket/handlers/assistantHandler.js:84-116 | after a completed deletion no row has the chat id, numbers stay distinct, and every other row survives |
| AssistantHandler.AssistantTable.constructor | node-api/websocket/handlers/assistantHandler.js:1 | the table starts empty |
| AssistantHandler.AssistantTable.ActivateAsWritten | node-api/websocket/handlers/assistantHandler.js:7-47 | a token that does not verify changes nothing; otherwise the rows and frame are those of the activation as written |
| AssistantHandler.AssistantTable.Activate | node-api/websocket/handlers/assistantHandler.js:7-47 | a token that does not verify changes nothing; otherwise the rows and frame are those of the corrected activation, and the table keeps distinct numbers |
| AssistantHandler.AssistantTable.Deactivate | node-api/websocket/handlers/assistantHandler.js:49-82 | a token that does not verify changes nothing; otherwise an unknown chat id gives 'Assistant not found.', a failing save the failure frame with its error, and a completed save switches that row to 'nonaktif' |
| AssistantHandler.AssistantTable.Delete | node-api/websocket/handlers/assistantHandler.js:84-116 | a token that does not verify changes nothing; otherwise an unknown chat id gives 'Assistant not found.', a failing destroy the failure frame with its error, and a completed destroy removes that row |
| Websocket.ParamProblem | node-api/websocket/websocket.js:17-20 | a field passes exactly when it is truthy and, where a type is demanded, has that `typeof` |
| Websocket.ParamError | node-api/websocket/websocket.js:15-22 | no error exactly when every required field passes; otherwise the error is that of the first field, in the order given, that fails |
| Websocket.ValidateParams | node-api/websocket/websocket.js:15-22 | the loop returns exactly when every field passes and throws the first failing field's message otherwise |
| Websocket.Args | node-api/websocket/websocket.js:88-172 | the handler receives the named fields of the command, in the order named, absent ones as `undefined` |
| Websocket.Entry | node-api/websocket/websocket.js:88-186 | the switch names exactly the 22 actions of the listener; every field a case checks is passed to its handler; every action but login, registration and the four session listings checks a token; only 'initialize' checks types |
| Websocket.IntendedEntry | node-api/websocket/websocket.js:141-148 | corrected, 'deleteAssistant' checks and passes the fields 'deactivateAssistant' checks, with the same handler; every other action is as written |
| Websocket.ParamErrorFrom | node-api/websocket/websocket.js:15-22 | from any position on, the error `validateParams` throws is that field's own problem, or else the first problem after it |
| Websocket.RouteWith | node-api/websocket/websocket.js:88-186 | an action the switch does not name is answered 'Unknown action provided.'; a named one calls its handler with its arguments exactly when its fields pass, and is otherwise answered with the validation message |
| Websocket.RouteAsWritten | node-api/websocket/websocket.js:69-186 | only an action outside the switch is answered 'Unknown action provided.', and a handler other than login, registration and the session listings is called only with a truthy token |
| Websocket.Route | node-api/websocket/websocket.js:69-186 | corrected, only an action outside the switch is answered 'Unknown action provided.', a handler other than login, registration and the session listings is called only with a truthy token, and every command but 'deleteAssistant' is routed exactly as written |
| Websocket.TokenChecked | node-api/websocket/websocket.js:15-22 | a case that lists the token among its required fields calls its handler only with a truthy token |
| Websocket.RoutedCommandsCarryRequiredFields | node-api/websocket/websocket.js:88-172 | a command reaches its handler only with every required field truthy, and 'initialize' only with a string account type and token |
| Websocket.UnknownActionsOnly | node-api/websocket/websocket.js:174-179 | a command is answered 'Unknown action provided.' exactly when its action is not one the switch names, in the listener as written and corrected alike |
| Websocket.DeleteAssistantAsWritten | node-api/websocket/websocket.js:145-148 | as written, a 'deleteAssistant' command with a sender number and no account type is rejected for the missing account type, and one with both hands the account type to the handler as the sender number |
| Websocket.DeleteAssistantPassesNumber | node-api/websocket/websocket.js:141-148 | corrected, 'deleteAssistant' is routed exactly when 'deactivateAssistant' would be, and passes the sender number and token as that command does |
| Websocket.ConnectionCapAsWritten | node-api/websocket/websocket.js:35-45 | as written, the 99th connection is accepted and the 100th refused, so at most 99 are ever open |
| Websocket.ConnectionCap | node-api/websocket/websocket.js:35-45 | corrected, the 100th connection is accepted and the 101st refused, so at most MAX_CLIENTS are open |
| Websocket.Swept | node-api/websocket/websocket.js:214-223 | a sweep keeps exactly the connections that answered the last ping, each marked as not alive until its next pong |
| Websocket.Hub.constructor | node-api/websocket/websocket.js:24-29 | the server starts with no connection |
| Websocket.Hub.ConnectAsWritten | node-api/websocket/websocket.js:37-47 | as written, the socket is added and marked alive exactly when the open connections plus the new one stay under MAX_CLIENTS; otherwise nothing changes |
| Websocket.Hub.Connect | node-api/websocket/websocket.js:37-47 | corrected, the socket is added and marked alive exactly when fewer than MAX_CLIENTS are open; otherwise nothing changes |
| Websocket.Hub.Pong | node-api/websocket/websocket.js:31-33 | a pong marks that connection alive and changes nothing else |
| Websocket.Hub.Sweep | node-api/websocket/websocket.js:214-223 | the heartbeat terminates the connections that did not answer, marks the rest not alive and pings them |
| Websocket.SweptKeepsHub | node-api/websocket/websocket.js:214-223 | a sweep keeps the connections distinct, keeps the alive flags for exactly the open connections, and never adds a connection |
| Websocket.TwoSweepsWithoutPong | node-api/websocket/websocket.js:214-223 | two sweeps with no pong between them terminate every connection |

## Left out

- The WhatsApp Web driver, puppeteer, Sequelize, axios, the QR renderer and the file system are parameters. Each is the outcome of one call, so the model does not see what they do inside.
- Timers, `setTimeout` and `Promise.race` timeouts are not modelled, nor is any interleaving of asynchronous work. Each interval firing is one method call, and a timeout is one kind of failed outcome. The race on the shared `result` in `checkSession` and two concurrent initializations of one account fall outside a sequential model.
- The random 3-13 second pause between batch sends and the delays between authentication retries are not modelled. Only the number of tries is.
- `process.memoryUsage`, the floating-point percentage in `monitorMemoryUsage` and the periodic memory log are not modelled. The threshold is an exact comparison on integer megabytes.
- MAX_CONCURRENT_CLIENTS comes from the environment and is a parameter `maxClients` of the session manager, assumed to be a number.
- The QR callback's log line reads `url.length` after a failed render and can throw. This logging is not modelled.
- `handleMessage` (the listener that forwards incoming messages to the assistant service over HTTP) is not modelled beyond its use of the circuit breaker, because it is HTTP and reply calls.
- `handleIncomingMessage` in the `node-api` service, which builds the webhook payload, is not modelled, because it only logs and forwards the message's fields. The fan-out to the webhooks is modelled.
- `reconnectAllClients` is not modelled. It loops over the rows whose status is 'active' and calls `initializeClient` for each, and `initializeClient` is modelled.
- `getActiveClients` is not modelled. It returns the registry itself.
- `getLastOutgoingMessages` and `getChatHistoryWithContact` are not modelled. They are date arithmetic and driver queries, and `chatHandler` receives what they resolve to or throw as a parameter.
- `listSessionFolders`, `checkSpecificSessionFolder` and `getSessionsFromDatabase` are not modelled. They are read-only listings that format what the file system and database return.
- `checkStatusHandler`'s 'Failed to check status' branch is not modelled. `checkClientConnection` catches its own errors, so that branch is not reached.
- `readdir` failing after `access` succeeded is not modelled. A listing either exists or it does not.
- Login, registration and `checkLogin` are not modelled, because they are JWT and bcrypt. A handler receives the decoded claims or nothing.
- `disconnectHandler` is not modelled. It passes `disconnectClient`'s reply through, and `disconnectClient` is modelled.
- Invalid JSON in a socket message is not modelled. It is answered by the server's catch before any routing.
- The per-socket inactivity timeout and the cleanup on close are not modelled, because they are timers.
- The dashboard edition's `initializeHandler` imports the dashboard's copy of the session service. That copy is not part of this model, so the handler is modelled over the `node-api` session service.
- GroupHandler.CreateGroupHandler, GroupHandler.SendMessageToGroupHandler and GroupHandler.InviteToGroupHandler: the dashboard edition's group handlers import the dashboard's copy of the session service. That copy is not part of this model, so `createGroup`, `sendMessageToGroup` and `inviteToGroup` are those of the `node-api` session service, and where the two copies differ the model does not say what the dashboard's does.
- `initializeHandler`'s catch ('Gagal menghubungkan, coba lagi.') is not modelled. Every service call it makes reports its failures as a reply.
- `initializeHandler`'s 'unknown_error' branch is not modelled. `InitializeHandler.EveryStatusIsHandled` proves it is never reached.
- `createGroupHandler`'s catch is not modelled. `createGroup` reports every failure as a reply.
- A `participants` value that is not an array is not modelled. The handler's `filter` would throw a TypeError on it; the model takes a sequence.
- The session folder is created by the driver's authentication strategy (`LocalAuth`) when a client is built and starts, before the browser launches. The model adds the folder whenever an admitted client is built, whatever `initialize()` then does, and does not model a start that fails before the folder is written.
- CircuitBreakers.CircuitBreaker.Execute: the clock is read once per call. The source reads `Date.now()` again in `recordFailure`, after the awaited operation, so its failure time and retry time are a little later than the model's.
- ChatHandler.IntArgumentOfNumber: numbers are integers in the model. Fractions (a `limit` of 2.5) and numbers of 10^21 or more, which JavaScript renders in exponent form and `parseInt` then reads as their first digit, are not modelled.
- SessionRegistry.SessionManager.DisconnectClient: the removal of the session folder (`fs.promises.rm` with `force`) is taken never to throw. If it did, the source would answer 'error' with the client destroyed and still registered.
- ServiceWa.WhatsAppService.InitializeSettles: the failure is rethrown, and because the constructor does not await `initializeClient`, it ends as an unhandled rejection. The model records only the change of state.
- MessagesHandler.SendMessagesHandler: the `ReceivedData` and `Results` writes are one `persist` outcome. The model does not say which row a failure leaves behind.
- MessagesHandler.SendMessagesHandler: a `messages` that is a string is not modelled. The loop would visit its characters as invalid items; the model treats any `messages` that is not an array as one that throws.
- MessagesHandler.SendMessagesHandler: a `data` that is `null` or `undefined` is not modelled. Its destructuring throws before the handler's `try`, so no frame is sent.
- MessagesHandler.ProgressFrames: each progress frame also carries `messages.length`, which is the same in every frame. The model keeps only the running count.
- MessagesHandler.Details: each detail keeps the number, the status and the text. The constant `account_type` and `typeProject` fields are left out.
- CronJobs.SortByActivity: `Array.prototype.sort` in place is modelled on a sequence, as an insertion sort. The model states sortedness and permutation, not which engine algorithm runs or how entries with equal activity are ordered.
- AssistantHandler.Activation: the corrected activation does not store `username` on the row it creates, because no other part of the core reads it.
- Websocket.Hub.ConnectAsWritten: a refused socket is never added to the hub. The server adds it and removes it again on 'close', so the model does not capture that it counts briefly.
- The Express routes, controllers, dashboard pages, models, configuration loading, logging and the Bull queue are outside the core and are not modelled.

## Findings

| source | as written | input that shows it | evidently intended | confidence | as-written member | corrected member |
|---|---|---|---|---|---|---|
| node-api/cron-jobs.js:64-68 | `clientId.split('-').reverse()` is destructured as `[username, account_type]`, so the account type is passed as the username and the username as the account type | the key "alice-personal" (user alice, type personal) is disconnected as user "personal", type "alice", that is key "personal-alice", which answers `not_found` and leaves alice connected | evict the least active client itself | high, not executed | CronJobs.EvictionTargetSwaps | CronJobs.IntendedEvictionHitsChosenClient |
| node-api/websocket/handlers/assistantHandler.js:15-31 | activation looks up the raw number, and when there is no row, it creates one from the undeclared `nomor` and throws a ReferenceError | activating "62812" on an empty table fails with 'nomor is not defined', so the listener never answers "62812@c.us" | look up and create the row of `<number>@c.us`, as deactivation, deletion and the message listener do | high, not executed | AssistantHandler.ActivationAsWrittenExample | AssistantHandler.ActivationServesChat |
| node-api/websocket/websocket.js:145-148 | `deleteAssistant` requires `account_type` and passes it to the handler as the sender number | a command with `nomor_pengirim` and no `account_type` is rejected; with both, the row of the account type is deleted | check and pass `nomor_pengirim`, as `deactivateAssistant` does | high, not executed | Websocket.DeleteAssistantAsWritten | Websocket.DeleteAssistantPassesNumber |
| node-api/websocket/websocket.js:35-45 | `wss.clients.size >= MAX_CLIENTS` is tested after the server has added the new socket to `wss.clients` | with 99 connections open, the 100th is refused, so at most 99 are ever open | room for MAX_CLIENTS (100) connections | medium (it depends on the ws library adding the socket before 'connection'), not executed | Websocket.ConnectionCapAsWritten | Websocket.ConnectionCap |

The socket routing (`Websocket.Route`), the assistant table (`AssistantHandler.AssistantTable.Activate`) and the hub (`Websocket.Hub.Connect`) use the corrected definitions. The memory governor (`CronJobs.AutoDisconnectInactiveClients`, `CronJobs.MonitorMemoryUsage`) keeps the split as written. Its contract then shows which account each disconnect actually reaches, and `CronJobs.IntendedEvictionTarget` is the corrected split. `AssistantHandler.AssistantTable.ActivateAsWritten` and `Websocket.Hub.ConnectAsWritten` keep the behaviour as written beside them.
