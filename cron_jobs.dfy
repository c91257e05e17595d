/**
 * The memory governor and the disk-usage walk run by the cron jobs: the heap
 * limit read from NODE_OPTIONS, the 80% threshold, the choice of the two
 * least recently active clients to disconnect, the way their registry keys
 * are taken apart, and the recursive size of the session directory.
 *
 * Memory figures are whole megabytes passed in; the registry entries are
 * given in insertion order (the order `Object.entries` yields them); the
 * directory tree is a value, with the two ways the file system can fail.
 */
module CronJobs {
  import opened Optional
  import opened JsSemantics
  import opened WaService
  import opened SessionRegistry

  // ---------------------------------------------------------------------------
  // Heap limit and threshold

  const MaxOldSpaceFlag: string := "--max-old-space-size="
  const DefaultHeapLimit: nat := 1024

  /**
   * The digits captured by `/--max-old-space-size=(\d+)/` in `s`, searching
   * from position `from`: the leftmost occurrence of the flag that is
   * followed by at least one digit, and all the digits that follow it.
   */
  function FlagDigits(s: string, from: nat): (r: Option<string>)
    requires from <= |s|
    ensures r.Some? ==> r.value != [] && AllDigits(r.value)
    decreases |s| - from
  {
    var at := from + |MaxOldSpaceFlag|;
    if StartsWith(s[from..], MaxOldSpaceFlag) && at < |s| && IsDigit(s[at]) then Some(LeadingDigits(s[at..]))
    else if from == |s| then None
    else FlagDigits(s, from + 1)
  }

  /** `parseInt(NODE_OPTIONS?.match(…)?.[1] || 1024)`, with an absent NODE_OPTIONS as `None`. */
  function HeapLimit(nodeOptions: Option<string>): nat {
    if nodeOptions.None? then DefaultHeapLimit
    else match FlagDigits(nodeOptions.value, 0)
      case None => DefaultHeapLimit
      case Some(ds) => DigitsValue(ds)
  }

  /** The captured digits are read the way `parseInt` reads them. */
  lemma HeapLimitIsParsed(nodeOptions: string)
    requires FlagDigits(nodeOptions, 0).Some?
    ensures ParseInt(FlagDigits(nodeOptions, 0).value) == Some(HeapLimit(Some(nodeOptions)) as int)
  {
    ParseIntOfDigits(FlagDigits(nodeOptions, 0).value);
  }

  /** Digits followed by a non-digit are exactly the leading digits. */
  lemma {:induction false} LeadingDigitsOfPrefix(ds: string, rest: string)
    requires AllDigits(ds) && (rest == [] || !IsDigit(rest[0]))
    ensures LeadingDigits(ds + rest) == ds
    decreases |ds|
  {
    if ds == [] {
      assert ds + rest == rest;
    } else {
      assert (ds + rest)[1..] == ds[1..] + rest;
      LeadingDigitsOfPrefix(ds[1..], rest);
      assert [ds[0]] + ds[1..] == ds;
    }
  }

  /**
   * NODE_OPTIONS that start with `--max-old-space-size=N` (then nothing, or
   * a non-digit) give the limit N; without NODE_OPTIONS the limit is 1024 MB.
   */
  lemma HeapLimitOfFlag(n: nat, rest: string)
    requires rest == [] || !IsDigit(rest[0])
    ensures HeapLimit(Some(MaxOldSpaceFlag + NatToString(n) + rest)) == n
    ensures HeapLimit(None) == DefaultHeapLimit
  {
    var digits := NatToString(n);
    var s := MaxOldSpaceFlag + digits + rest;
    assert s[..|MaxOldSpaceFlag|] == MaxOldSpaceFlag;
    assert s[0..][..|MaxOldSpaceFlag|] == MaxOldSpaceFlag;
    assert s[|MaxOldSpaceFlag|..] == digits + rest;
    assert s[|MaxOldSpaceFlag|] == digits[0];
    LeadingDigitsOfPrefix(digits, rest);
    DigitsValueOfNatToString(n);
  }

  /**
   * `(heapUsedMB / heapLimit) * 100 > 80`, on exact quotients. A zero limit
   * makes the quotient Infinity (over the threshold) or, with nothing used,
   * NaN (not over it).
   */
  predicate OverThreshold(heapUsedMB: nat, heapLimit: nat) {
    if heapLimit == 0 then heapUsedMB > 0 else heapUsedMB * 100 > 80 * heapLimit
  }

  /** Exactly 80% of the limit does not trigger eviction; one megabyte more of a 5 MB multiple does. */
  lemma ThresholdIsStrict(k: nat)
    requires k > 0
    ensures !OverThreshold(4 * k, 5 * k)
    ensures OverThreshold(4 * k + 1, 5 * k)
    ensures OverThreshold(1, 0) && !OverThreshold(0, 0)
  {
  }

  // ---------------------------------------------------------------------------
  // Choosing whom to disconnect

  /** One `[clientId, client]` entry of the registry. */
  datatype ActiveEntry = ActiveEntry(key: string, lastActivity: Option<int>)

  /** `client.lastActivity || 0` */
  function Activity(e: ActiveEntry): int {
    e.lastActivity.GetOr(0)
  }

  predicate SortedByActivity(s: seq<ActiveEntry>) {
    forall i, j | 0 <= i < j < |s| :: Activity(s[i]) <= Activity(s[j])
  }

  lemma ConsSorted(x: ActiveEntry, s: seq<ActiveEntry>)
    requires SortedByActivity(s)
    requires forall k | 0 <= k < |s| :: Activity(x) <= Activity(s[k])
    ensures SortedByActivity([x] + s)
  {
    var r := [x] + s;
    forall i, j | 0 <= i < j < |r|
      ensures Activity(r[i]) <= Activity(r[j])
    {
      if i > 0 {
        assert r[i] == s[i - 1] && r[j] == s[j - 1];
      }
    }
  }

  /** Puts `e` before the first entry that is at least as old, so that earlier entries stay first among equals. */
  function Insert(e: ActiveEntry, s: seq<ActiveEntry>): (r: seq<ActiveEntry>)
    requires SortedByActivity(s)
    ensures SortedByActivity(r)
    ensures multiset(r) == multiset(s) + multiset{e}
    ensures |r| == |s| + 1
    decreases |s|
  {
    if s == [] || Activity(e) <= Activity(s[0]) then [e] + s
    else
      var rest := Insert(e, s[1..]);
      assert s == [s[0]] + s[1..];
      HeadBoundsPermutation(s[0], e, s[1..], rest);
      ConsSorted(s[0], rest);
      [s[0]] + rest
  }

  /** An entry no newer than `e` and than every entry of `t` is no newer than any entry of a permutation of `t` plus `e`. */
  lemma HeadBoundsPermutation(x: ActiveEntry, e: ActiveEntry, t: seq<ActiveEntry>, rest: seq<ActiveEntry>)
    requires Activity(x) <= Activity(e)
    requires forall k | 0 <= k < |t| :: Activity(x) <= Activity(t[k])
    requires multiset(rest) == multiset(t) + multiset{e}
    ensures forall k | 0 <= k < |rest| :: Activity(x) <= Activity(rest[k])
  {
    forall k | 0 <= k < |rest|
      ensures Activity(x) <= Activity(rest[k])
    {
      assert rest[k] in multiset(rest);
      if rest[k] != e {
        assert rest[k] in multiset(t);
        var j :| 0 <= j < |t| && t[j] == rest[k];
      }
    }
  }

  /**
   * The stable sort of `clientEntries.sort((a, b) => (a.lastActivity || 0) -
   * (b.lastActivity || 0))`: oldest activity first.
   */
  function SortByActivity(s: seq<ActiveEntry>): (r: seq<ActiveEntry>)
    ensures SortedByActivity(r)
    ensures multiset(r) == multiset(s)
    ensures |r| == |s|
    decreases |s|
  {
    if s == [] then []
    else
      assert s == [s[0]] + s[1..];
      Insert(s[0], SortByActivity(s[1..]))
  }

  /** `Math.min(2, sortedClients.length)` */
  function DisconnectCount(n: nat): (k: nat)
    ensures k <= n && k <= 2
    ensures k == 2 || k == n
  {
    if n < 2 then n else 2
  }

  /**
   * The chosen entries are exactly `min(2, n)` entries of the registry, and
   * none of the others has an older activity than any of them; an empty
   * registry gives nobody.
   */
  lemma VictimsAreLeastActive(entries: seq<ActiveEntry>)
    ensures var sorted := SortByActivity(entries);
      var k := DisconnectCount(|entries|);
      && multiset(sorted) == multiset(entries)
      && (forall i | 0 <= i < k :: sorted[i] in entries)
      && (forall i, j | 0 <= i < k <= j < |sorted| :: Activity(sorted[i]) <= Activity(sorted[j]))
      && (entries == [] ==> k == 0)
  {
    var sorted := SortByActivity(entries);
    forall i | 0 <= i < DisconnectCount(|entries|)
      ensures sorted[i] in entries
    {
      assert sorted[i] in multiset(sorted);
    }
  }

  // ---------------------------------------------------------------------------
  // Taking a key apart

  /**
   * `const [username, account_type] = clientId.split('-').reverse()`: the
   * last piece becomes the username and the one before it the account type
   * (`undefined`, rendered "undefined" by the template literal, if there is
   * none). Returned as the `(account_type, username)` pair passed on.
   */
  function EvictionTarget(key: string): (r: (string, string))
    ensures '-' !in r.1
    ensures r.0 != "undefined" ==> '-' !in r.0
  {
    var parts := Split(key, '-');
    var username := parts[|parts| - 1];
    var accountType := if |parts| >= 2 then parts[|parts| - 2] else "undefined";
    (accountType, username)
  }

  /** A two-piece key is `username-type`, built from a type and a username without '-'. */
  lemma SplitAccountKey(accountType: string, username: string)
    requires '-' !in accountType && '-' !in username
    ensures Split(AccountKey(accountType, username), '-') == [username, accountType]
  {
    var parts := [username, accountType];
    assert Join(parts, '-') == AccountKey(accountType, username) by {
      assert Join(parts[1..], '-') == accountType;
    }
    SplitJoin(parts, '-');
  }

  /**
   * The key of (type t, user u) is taken apart as (type u, user t), so the
   * disconnect rebuilds the key of user t and type u: a different account
   * unless u = t.
   */
  lemma EvictionTargetSwaps(accountType: string, username: string)
    requires '-' !in accountType && '-' !in username
    ensures EvictionTarget(AccountKey(accountType, username)) == (username, accountType)
    ensures var (t, u) := EvictionTarget(AccountKey(accountType, username));
      AccountKey(t, u) == AccountKey(username, accountType)
      && (AccountKey(t, u) == AccountKey(accountType, username) <==> accountType == username)
  {
    SplitAccountKey(accountType, username);
    AccountKeyInjective(username, accountType, accountType, username);
  }

  /**
   * So the memory governor does not disconnect the client it chose: when the
   * swapped key is not registered, the keep-session disconnect finds nothing
   * and leaves the registry as it was, while the chosen client stays
   * registered.
   */
  lemma EvictionMissesChosenClient(g: Registry, accountType: string, username: string, destroy: Attempt)
    requires Closed(g)
    requires '-' !in accountType && '-' !in username
    requires AccountKey(accountType, username) in g.clients
    requires AccountKey(username, accountType) !in g.clients
    ensures var (t, u) := EvictionTarget(AccountKey(accountType, username));
      && KeepSession(g, AccountKey(t, u), destroy) == g
      && KeepSessionReply(AccountKey(t, u), false, destroy).status == "not_found"
  {
    EvictionTargetSwaps(accountType, username);
  }

  /** A concrete instance: the account (type "personal", user "alice") is sent to the disconnect as (type "alice", user "personal"). */
  lemma EvictionTargetExample()
    ensures EvictionTarget(AccountKey("personal", "alice")) == ("alice", "personal")
    ensures AccountKey("alice", "personal") != AccountKey("personal", "alice")
  {
    EvictionTargetSwaps("personal", "alice");
  }

  /** The position of the last `c` in `s`, or -1. */
  function LastIndexOf(s: string, c: char): (r: int)
    ensures -1 <= r < |s|
    ensures r >= 0 ==> s[r] == c && c !in s[r + 1..]
    ensures r == -1 ==> c !in s
    decreases |s|
  {
    if s == [] then -1
    else if s[|s| - 1] == c then |s| - 1
    else
      var r := LastIndexOf(s[..|s| - 1], c);
      assert s == s[..|s| - 1] + [s[|s| - 1]];
      assert r >= 0 ==> s[r + 1..] == s[..|s| - 1][r + 1..] + [s[|s| - 1]];
      r
  }

  /**
   * The intended decomposition: the account type is what follows the last
   * '-', the username everything before it (usernames may contain '-').
   */
  function IntendedEvictionTarget(key: string): (r: (string, string))
    ensures '-' !in r.0 || ('-' !in key && r.0 == "undefined")
    ensures '-' in key ==> AccountKey(r.0, r.1) == key
    ensures '-' !in key ==> r == ("undefined", key)
  {
    var i := LastIndexOf(key, '-');
    if i < 0 then ("undefined", key) else (key[i + 1..], key[..i])
  }

  /** Taking apart the key of any account whose type has no '-' gives back that account. */
  lemma IntendedEvictionTargetRoundTrip(accountType: string, username: string)
    requires '-' !in accountType
    ensures IntendedEvictionTarget(AccountKey(accountType, username)) == (accountType, username)
    ensures var (t, u) := IntendedEvictionTarget(AccountKey(accountType, username));
      AccountKey(t, u) == AccountKey(accountType, username)
  {
    var key := AccountKey(accountType, username);
    var i := LastIndexOf(key, '-');
    assert key[|username|] == '-';
    assert key[|username| + 1..] == accountType;
    assert forall j | i < j < |key| :: key[j] != '-' by {
      forall j | i < j < |key|
        ensures key[j] != '-'
      {
        assert key[j] == key[i + 1..][j - i - 1];
      }
    }
    assert forall j | |username| < j < |key| :: key[j] == accountType[j - |username| - 1];
    assert i == |username|;
    assert key[..i] == username;
  }

  /** With the intended decomposition, evicting a registered client whose `destroy()` resolves unregisters it. */
  lemma IntendedEvictionHitsChosenClient(g: Registry, accountType: string, username: string, destroy: Attempt)
    requires Closed(g)
    requires '-' !in accountType
    requires AccountKey(accountType, username) in g.clients && destroy.Succeeds?
    ensures var (t, u) := IntendedEvictionTarget(AccountKey(accountType, username));
      && AccountKey(accountType, username) !in KeepSession(g, AccountKey(t, u), destroy).clients
      && KeepSession(g, AccountKey(t, u), destroy).artifacts == g.artifacts
  {
    IntendedEvictionTargetRoundTrip(accountType, username);
  }

  /**
   * `autoDisconnectInactiveClients`: sorts the entries, oldest activity
   * first, and starts a keep-session disconnect for each of the first
   * `min(2, n)`, with the key taken apart as written. The disconnects are not
   * awaited, so their outcomes play no part.
   */
  method AutoDisconnectInactiveClients(entries: seq<ActiveEntry>) returns (calls: seq<(string, string)>)
    ensures |calls| == DisconnectCount(|entries|)
    ensures forall i | 0 <= i < |calls| :: calls[i] == EvictionTarget(SortByActivity(entries)[i].key)
  {
    calls := [];
    if |entries| == 0 {
      return;
    }
    var sorted := SortByActivity(entries);
    var count := DisconnectCount(|sorted|);
    for i := 0 to count
      invariant |calls| == i
      invariant forall k | 0 <= k < i :: calls[k] == EvictionTarget(sorted[k].key)
    {
      calls := calls + [EvictionTarget(sorted[i].key)];
    }
  }

  /** `monitorMemoryUsage`: the disconnects it starts, given NODE_OPTIONS, the heap in use and the registry. */
  method MonitorMemoryUsage(nodeOptions: Option<string>, heapUsedMB: nat, entries: seq<ActiveEntry>)
    returns (calls: seq<(string, string)>)
    ensures !OverThreshold(heapUsedMB, HeapLimit(nodeOptions)) ==> calls == []
    ensures OverThreshold(heapUsedMB, HeapLimit(nodeOptions)) ==>
      |calls| == DisconnectCount(|entries|)
      && forall i | 0 <= i < |calls| :: calls[i] == EvictionTarget(SortByActivity(entries)[i].key)
  {
    var heapLimit := HeapLimit(nodeOptions);
    if OverThreshold(heapUsedMB, heapLimit) {
      calls := AutoDisconnectInactiveClients(entries);
    } else {
      calls := [];
    }
  }

  // ---------------------------------------------------------------------------
  // Disk usage of the session directory

  /**
   * An entry of the session directory: a file with its size, a directory
   * with its entries, a directory that cannot be listed (`readdirSync`
   * throws), or an entry that cannot be examined (`statSync` throws).
   */
  datatype FsNode = File(size: nat) | Dir(children: seq<FsNode>) | Unlistable | Unstattable

  /** The size of every file below `n`, counting nothing for what cannot be read. */
  function FileBytes(n: FsNode): nat
    decreases n
  {
    match n
    case File(size) => size
    case Dir(children) => FileBytesAll(children)
    case Unlistable => 0
    case Unstattable => 0
  }

  function FileBytesAll(children: seq<FsNode>): nat
    decreases children
  {
    if children == [] then 0 else FileBytes(children[0]) + FileBytesAll(children[1..])
  }

  /** A tree in which every directory can be listed and every entry examined. */
  predicate Readable(n: FsNode)
    decreases n
  {
    match n
    case File(_) => true
    case Dir(children) => forall i | 0 <= i < |children| :: Readable(children[i])
    case Unlistable => false
    case Unstattable => false
  }

  /**
   * What `calculateDirSize` adds up for the entries `children`, in order: an
   * entry that cannot be examined throws, and the `catch` around the loop
   * keeps the total so far.
   */
  function ListedBytes(children: seq<FsNode>): nat
    decreases children
  {
    if children == [] || children[0].Unstattable? then 0
    else EntryBytes(children[0]) + ListedBytes(children[1..])
  }

  /** One examined entry: a directory is walked recursively, a file counts its size. */
  function EntryBytes(n: FsNode): nat
    decreases n
  {
    match n
    case File(size) => size
    case Dir(children) => ListedBytes(children)
    case Unlistable => 0
    case Unstattable => 0
  }

  /** `calculateDirSize(dir)` */
  method CalculateDirSize(dir: FsNode) returns (totalSize: nat)
    requires !dir.File? && !dir.Unstattable?
    ensures totalSize == EntryBytes(dir)
    decreases dir
  {
    totalSize := 0;
    if dir.Unlistable? {
      return;
    }
    var files := dir.children;
    var i := 0;
    while i < |files|
      invariant 0 <= i <= |files|
      invariant totalSize + ListedBytes(files[i..]) == ListedBytes(files)
      invariant forall k | 0 <= k < i :: !files[k].Unstattable?
    {
      var entry := files[i];
      if entry.Unstattable? {
        break;
      }
      assert files[i..] == [entry] + files[i + 1..];
      if entry.File? {
        totalSize := totalSize + entry.size;
      } else {
        var sub := CalculateDirSize(entry);
        totalSize := totalSize + sub;
      }
      i := i + 1;
    }
  }

  /** The walk never counts more than the files hold. */
  lemma {:induction false} ListedBytesBounded(n: FsNode)
    ensures EntryBytes(n) <= FileBytes(n)
    decreases n
  {
    match n
    case Dir(children) => ListedBytesAllBounded(children);
    case _ =>
  }

  lemma {:induction false} ListedBytesAllBounded(children: seq<FsNode>)
    ensures ListedBytes(children) <= FileBytesAll(children)
    decreases children
  {
    if children != [] {
      ListedBytesBounded(children[0]);
      ListedBytesAllBounded(children[1..]);
    }
  }

  /** On a readable tree the walk returns the sum of the sizes of all files, at every depth. */
  lemma {:induction false} ListedBytesOfReadable(n: FsNode)
    requires Readable(n)
    ensures EntryBytes(n) == FileBytes(n)
    decreases n
  {
    match n
    case Dir(children) => ListedBytesAllOfReadable(children);
    case _ =>
  }

  lemma {:induction false} ListedBytesAllOfReadable(children: seq<FsNode>)
    requires forall i | 0 <= i < |children| :: Readable(children[i])
    ensures ListedBytes(children) == FileBytesAll(children)
    decreases children
  {
    if children != [] {
      ListedBytesOfReadable(children[0]);
      ListedBytesAllOfReadable(children[1..]);
    }
  }
}
