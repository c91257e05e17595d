/**
 * The status command and the reconciliation of session folders against the
 * sessions table: the connection state reported to the socket, the scan that
 * sorts the folders under `.wwebjs_auth` into those the database knows and
 * orphans, and the cleanup that deletes the orphans.
 *
 * The table's rows, the folder listing and each folder removal are inputs: a
 * query that throws is `None`, a missing `.wwebjs_auth` is a listing of
 * `None`, and each removal succeeds or throws.
 */
module CheckStatus {
  import opened Optional
  import opened JsSemantics
  import opened UpdateSession
  import opened WaService
  import opened WsCommon

  // ---------------------------------------------------------------------------
  // checkStatusHandler

  /** The frame `checkStatusHandler` sends. */
  datatype StatusFrame =
    | LoginFailed
    | Connected(accountType: JsValue, username: JsValue, phoneNumber: Option<string>, state: string)
    | Disconnected

  /** Connected only when the report's state is exactly CONNECTED; every other state is "disconnected". */
  function StatusFrameFor(decoded: Option<Claims>, accountType: JsValue, report: ConnectionReport): (f: StatusFrame)
    ensures f.LoginFailed? <==> decoded.None?
    ensures f.Connected? <==> decoded.Some? && report.state == "CONNECTED"
    ensures f.Connected? ==> f.phoneNumber == report.phoneNumber && f.username == decoded.value.username
  {
    if decoded.None? then LoginFailed
    else if report.state == "CONNECTED" then Connected(accountType, decoded.value.username, report.phoneNumber, report.state)
    else Disconnected
  }

  /**
   * An account that was evicted, or that has no client, is never reported as
   * connected, and a connected report carries the number of the linked
   * account.
   */
  lemma ConnectedOnlyWithClient(decoded: Option<Claims>, accountType: JsValue, registered: bool, accountKnown: bool, probe: Probe)
    requires decoded.Some?
    ensures var f := StatusFrameFor(decoded, accountType, ConnectionReportFor(registered, accountKnown, probe));
      (f.Connected? ==> registered && f.phoneNumber.Some?)
      && (!registered ==> f == Disconnected)
  {
  }

  // ---------------------------------------------------------------------------
  // Scanning the session folders

  /** The keys of the table's rows, `${username}-${account_type}`. */
  function DbKeys(rows: seq<SessionRow>): set<string> {
    set r | r in rows :: AccountKey(r.accountType, r.username)
  }

  /** A folder name that can be a session: it contains '-'. */
  predicate IsSessionName(name: string) {
    '-' in name
  }

  /** The session folders the database knows, in listing order. */
  function ValidFolders(folders: seq<string>, keys: set<string>): (r: seq<string>)
    ensures |r| <= |folders|
    decreases |folders|
  {
    if folders == [] then []
    else
      var n := |folders| - 1;
      var before := ValidFolders(folders[..n], keys);
      if IsSessionName(folders[n]) && folders[n] in keys then before + [folders[n]] else before
  }

  /** The session folders the database does not know, in listing order. */
  function OrphanedFolders(folders: seq<string>, keys: set<string>): (r: seq<string>)
    ensures |r| <= |folders|
    decreases |folders|
  {
    if folders == [] then []
    else
      var n := |folders| - 1;
      var before := OrphanedFolders(folders[..n], keys);
      if IsSessionName(folders[n]) && folders[n] !in keys then before + [folders[n]] else before
  }

  /** The names without '-', which the scan skips. */
  function SkippedFolders(folders: seq<string>): (r: seq<string>)
    decreases |folders|
  {
    if folders == [] then []
    else
      var n := |folders| - 1;
      var before := SkippedFolders(folders[..n]);
      if !IsSessionName(folders[n]) then before + [folders[n]] else before
  }

  /**
   * Every listed name is skipped, valid or orphaned, and exactly one of them:
   * a name is valid exactly when it contains '-' and is a database key, and
   * orphaned exactly when it contains '-' and is not.
   */
  lemma {:induction false} ScanPartitionsListing(folders: seq<string>, keys: set<string>)
    ensures |ValidFolders(folders, keys)| + |OrphanedFolders(folders, keys)| + |SkippedFolders(folders)| == |folders|
    ensures forall x :: x in ValidFolders(folders, keys) <==> x in folders && IsSessionName(x) && x in keys
    ensures forall x :: x in OrphanedFolders(folders, keys) <==> x in folders && IsSessionName(x) && x !in keys
    decreases |folders|
  {
    if folders != [] {
      var n := |folders| - 1;
      ScanPartitionsListing(folders[..n], keys);
      assert folders == folders[..n] + [folders[n]];
    }
  }

  /** What `listOrphanedSessionFolders` sends. */
  datatype OrphanReport =
    | OrphanScan(dbSessionCount: nat, totalFolders: nat, orphanedFolders: seq<string>, validFolders: seq<string>)
    | AuthFolderMissing
    | ScanFailed

  /** `listOrphanedSessionFolders` */
  method ListOrphanedSessionFolders(rows: Option<seq<SessionRow>>, listing: Option<seq<string>>)
    returns (report: OrphanReport)
    ensures rows.None? ==> report == ScanFailed
    ensures rows.Some? && listing.None? ==> report == AuthFolderMissing
    ensures rows.Some? && listing.Some? ==>
      var keys := DbKeys(rows.value);
      report == OrphanScan(|rows.value|, |listing.value|,
                           OrphanedFolders(listing.value, keys), ValidFolders(listing.value, keys))
  {
    if rows.None? {
      return ScanFailed;
    }
    var dbSessionMap := DbKeys(rows.value);
    if listing.None? {
      return AuthFolderMissing;
    }
    var folderContents := listing.value;
    var orphanedFolders, validFolders := [], [];
    for i := 0 to |folderContents|
      invariant orphanedFolders == OrphanedFolders(folderContents[..i], dbSessionMap)
      invariant validFolders == ValidFolders(folderContents[..i], dbSessionMap)
    {
      var folderName := folderContents[i];
      assert folderContents[..i + 1][..i] == folderContents[..i];
      if !IsSessionName(folderName) {
        continue;
      }
      if folderName in dbSessionMap {
        validFolders := validFolders + [folderName];
      } else {
        orphanedFolders := orphanedFolders + [folderName];
      }
    }
    assert folderContents[..|folderContents|] == folderContents;
    report := OrphanScan(|rows.value|, |folderContents|, orphanedFolders, validFolders);
  }

  /** The scan's counts never exceed the listing, which also counts the skipped names. */
  lemma ScanCountsWithinTotal(rows: seq<SessionRow>, folders: seq<string>)
    ensures var keys := DbKeys(rows);
      |ValidFolders(folders, keys)| + |OrphanedFolders(folders, keys)| <= |folders|
  {
    ScanPartitionsListing(folders, DbKeys(rows));
  }

  // ---------------------------------------------------------------------------
  // Deleting the orphans

  /** The orphans whose removal succeeded, in listing order; `removals[i]` is the outcome of removing `folders[i]`. */
  function DeletedFolders(folders: seq<string>, keys: set<string>, removals: seq<Attempt>): (r: seq<string>)
    requires |removals| == |folders|
    decreases |folders|
  {
    if folders == [] then []
    else
      var n := |folders| - 1;
      var before := DeletedFolders(folders[..n], keys, removals[..n]);
      if IsSessionName(folders[n]) && folders[n] !in keys && removals[n].Succeeds? then before + [folders[n]] else before
  }

  /** `{ folder, error }` */
  datatype FolderError = FolderError(folder: string, error: string)

  /** The orphans whose removal threw, with the error, in listing order. */
  function ErrorFolders(folders: seq<string>, keys: set<string>, removals: seq<Attempt>): (r: seq<FolderError>)
    requires |removals| == |folders|
    decreases |folders|
  {
    if folders == [] then []
    else
      var n := |folders| - 1;
      var before := ErrorFolders(folders[..n], keys, removals[..n]);
      if IsSessionName(folders[n]) && folders[n] !in keys && removals[n].Throws? then
        before + [FolderError(folders[n], removals[n].message)]
      else before
  }

  /**
   * Each orphan ends up either deleted or in the error list, never both, and
   * nothing the database knows is ever deleted.
   */
  lemma {:induction false} CleanupSplitsOrphans(folders: seq<string>, keys: set<string>, removals: seq<Attempt>)
    requires |removals| == |folders|
    ensures |DeletedFolders(folders, keys, removals)| + |ErrorFolders(folders, keys, removals)| == |OrphanedFolders(folders, keys)|
    ensures forall x | x in DeletedFolders(folders, keys, removals) :: x in OrphanedFolders(folders, keys) && x !in keys
    ensures forall e | e in ErrorFolders(folders, keys, removals) :: e.folder in OrphanedFolders(folders, keys)
    ensures (forall i | 0 <= i < |removals| :: removals[i].Succeeds?) ==>
      DeletedFolders(folders, keys, removals) == OrphanedFolders(folders, keys) && ErrorFolders(folders, keys, removals) == []
    decreases |folders|
  {
    if folders != [] {
      var n := |folders| - 1;
      CleanupSplitsOrphans(folders[..n], keys, removals[..n]);
      if forall i | 0 <= i < |removals| :: removals[i].Succeeds? {
        assert forall i | 0 <= i < n :: removals[..n][i] == removals[i];
      }
    }
  }

  /** What `cleanupOrphanedSessionFolders` sends. */
  datatype CleanupReport =
    | CleanupDone(dbSessionCount: nat, orphanedFolders: seq<string>, deletedFolders: seq<string>, errorFolders: seq<FolderError>)
    | AuthFolderNotFound
    | CleanupFailed

  /**
   * `cleanupOrphanedSessionFolders`: the report, and the folders removed from
   * disk in the order they were removed.
   */
  method CleanupOrphanedSessionFolders(rows: Option<seq<SessionRow>>, listing: Option<seq<string>>, removals: seq<Attempt>)
    returns (report: CleanupReport, removed: seq<string>)
    requires listing.Some? ==> |removals| == |listing.value|
    ensures rows.None? ==> report == CleanupFailed && removed == []
    ensures rows.Some? && listing.None? ==> report == AuthFolderNotFound && removed == []
    ensures rows.Some? && listing.Some? ==>
      var keys := DbKeys(rows.value);
      && removed == DeletedFolders(listing.value, keys, removals)
      && report == CleanupDone(|rows.value|, OrphanedFolders(listing.value, keys), removed,
                               ErrorFolders(listing.value, keys, removals))
  {
    removed := [];
    if rows.None? {
      return CleanupFailed, removed;
    }
    var dbSessionMap := DbKeys(rows.value);
    if listing.None? {
      return AuthFolderNotFound, removed;
    }
    var folderContents := listing.value;
    var orphanedFolders, errorFolders := [], [];
    for i := 0 to |folderContents|
      invariant orphanedFolders == OrphanedFolders(folderContents[..i], dbSessionMap)
      invariant removed == DeletedFolders(folderContents[..i], dbSessionMap, removals[..i])
      invariant errorFolders == ErrorFolders(folderContents[..i], dbSessionMap, removals[..i])
    {
      var folderName := folderContents[i];
      assert folderContents[..i + 1][..i] == folderContents[..i] && removals[..i + 1][..i] == removals[..i];
      if !IsSessionName(folderName) {
        continue;
      }
      if folderName !in dbSessionMap {
        orphanedFolders := orphanedFolders + [folderName];
        if removals[i].Succeeds? {
          removed := removed + [folderName];
        } else {
          errorFolders := errorFolders + [FolderError(folderName, removals[i].message)];
        }
      }
    }
    assert folderContents[..|folderContents|] == folderContents && removals[..|removals|] == removals;
    report := CleanupDone(|rows.value|, orphanedFolders, removed, errorFolders);
  }

  /** The folder of an account the database knows survives a cleanup, whatever the removals do. */
  lemma CleanupSparesKnownAccounts(rows: seq<SessionRow>, folders: seq<string>, removals: seq<Attempt>, r: SessionRow)
    requires |removals| == |folders| && r in rows
    ensures AccountKey(r.accountType, r.username) !in DeletedFolders(folders, DbKeys(rows), removals)
  {
    CleanupSplitsOrphans(folders, DbKeys(rows), removals);
  }
}
