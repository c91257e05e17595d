/**
 * The durable session store: one row per linked WhatsApp account, keyed by
 * (username, account_type), with find-then-update-or-create on save, delete
 * of every row of a pair, and a lookup that never throws.
 *
 * A database call either completes or fails as a whole; its outcome is the
 * parameter `ok`. `findOne` without an ordering is modelled as "the first
 * matching row".
 */
module UpdateSession {
  import opened Optional

  /** A row of the `sessions` table (the auto-increment id and the timestamps are not modelled). */
  datatype SessionRow = SessionRow(username: string, accountType: string, status: string, whatsappNumber: string)

  /** `{ status: 'success' | 'error', message }` */
  datatype StoreReply = StoreReply(success: bool, message: string)

  /** The object `checkAccountInDatabase` returns for a known account. */
  datatype AccountInfo = AccountInfo(status: string, message: string, username: string, accountType: string)

  predicate Matches(r: SessionRow, username: string, accountType: string) {
    r.username == username && r.accountType == accountType
  }

  /** The rows of one (username, account_type) pair, in table order. */
  function RowsOf(rows: seq<SessionRow>, username: string, accountType: string): seq<SessionRow>
    decreases |rows|
  {
    if rows == [] then []
    else if Matches(rows[0], username, accountType) then [rows[0]] + RowsOf(rows[1..], username, accountType)
    else RowsOf(rows[1..], username, accountType)
  }

  /** `Session.findOne({ where: { username, account_type } })`: the index of the first matching row, or -1. */
  function FindSession(rows: seq<SessionRow>, username: string, accountType: string): (i: int)
    ensures -1 <= i < |rows|
    ensures i >= 0 ==> Matches(rows[i], username, accountType)
    ensures forall j | 0 <= j < |rows| && (i == -1 || j < i) :: !Matches(rows[j], username, accountType)
    decreases |rows|
  {
    if rows == [] then -1
    else if Matches(rows[0], username, accountType) then 0
    else
      var k := FindSession(rows[1..], username, accountType);
      if k == -1 then -1 else k + 1
  }

  /** The row that saving writes: status 'active' and the given number. */
  function ActiveRow(username: string, accountType: string, whatsappNumber: string): SessionRow {
    SessionRow(username, accountType, "active", whatsappNumber)
  }

  /** The table after a successful save: the first row of the pair is updated, or a row is created at the end. */
  function Upsert(rows: seq<SessionRow>, username: string, accountType: string, whatsappNumber: string): seq<SessionRow> {
    var i := FindSession(rows, username, accountType);
    if i == -1 then rows + [ActiveRow(username, accountType, whatsappNumber)]
    else rows[i := rows[i].(status := "active", whatsappNumber := whatsappNumber)]
  }

  /** The table after a successful delete: every row of the pair is gone. */
  function RemovePair(rows: seq<SessionRow>, username: string, accountType: string): seq<SessionRow>
    decreases |rows|
  {
    if rows == [] then []
    else if Matches(rows[0], username, accountType) then RemovePair(rows[1..], username, accountType)
    else [rows[0]] + RemovePair(rows[1..], username, accountType)
  }

  /** `checkAccountInDatabase` over a table that answered. */
  function Lookup(rows: seq<SessionRow>, username: string, accountType: string): Option<AccountInfo> {
    var i := FindSession(rows, username, accountType);
    if i == -1 then None
    else Some(AccountInfo("terhubung", "Akun sudah terhubung.", rows[i].username, rows[i].accountType))
  }

  // ---------------------------------------------------------------------------
  // Lemmas

  lemma {:induction false} RowsOfAppend(rows: seq<SessionRow>, extra: SessionRow, username: string, accountType: string)
    ensures RowsOf(rows + [extra], username, accountType)
         == RowsOf(rows, username, accountType) + (if Matches(extra, username, accountType) then [extra] else [])
    decreases |rows|
  {
    if rows == [] {
      assert [] + [extra] == [extra];
    } else {
      assert (rows + [extra])[1..] == rows[1..] + [extra];
      RowsOfAppend(rows[1..], extra, username, accountType);
    }
  }

  /** Replacing a row with one of the same pair replaces the matching rows in place; other pairs see nothing. */
  lemma {:induction false} RowsOfUpdate(rows: seq<SessionRow>, i: nat, x: SessionRow, username: string, accountType: string)
    requires i < |rows| && x.username == rows[i].username && x.accountType == rows[i].accountType
    requires forall j | 0 <= j < i :: !Matches(rows[j], x.username, x.accountType)
    ensures Matches(x, username, accountType) ==>
      && RowsOf(rows, username, accountType) != []
      && RowsOf(rows[i := x], username, accountType) == [x] + RowsOf(rows, username, accountType)[1..]
    ensures !Matches(x, username, accountType) ==>
      RowsOf(rows[i := x], username, accountType) == RowsOf(rows, username, accountType)
    decreases i
  {
    if i > 0 {
      RowsOfUpdate(rows[1..], i - 1, x, username, accountType);
      assert rows[i := x][1..] == rows[1..][i - 1 := x];
    }
  }

  /** After a successful save the pair has a row, found first, that is 'active' with the given number. */
  lemma SaveEstablishesRecord(rows: seq<SessionRow>, username: string, accountType: string, whatsappNumber: string)
    ensures var after := Upsert(rows, username, accountType, whatsappNumber);
      var i := FindSession(after, username, accountType);
      i >= 0 && after[i] == ActiveRow(username, accountType, whatsappNumber)
  {
    var i := FindSession(rows, username, accountType);
    if i == -1 {
      var after := Upsert(rows, username, accountType, whatsappNumber);
      assert after[|rows|] == ActiveRow(username, accountType, whatsappNumber);
    }
  }

  /**
   * Saving never creates a second row for a pair: it creates one if there was
   * none and otherwise keeps the number of rows. Rows of every other pair
   * are unchanged.
   */
  lemma SaveCreatesNoDuplicate(rows: seq<SessionRow>, username: string, accountType: string, whatsappNumber: string,
                               otherUser: string, otherType: string)
    ensures |RowsOf(Upsert(rows, username, accountType, whatsappNumber), username, accountType)|
         == if RowsOf(rows, username, accountType) == [] then 1 else |RowsOf(rows, username, accountType)|
    ensures (otherUser, otherType) != (username, accountType) ==>
      RowsOf(Upsert(rows, username, accountType, whatsappNumber), otherUser, otherType) == RowsOf(rows, otherUser, otherType)
  {
    var i := FindSession(rows, username, accountType);
    var row := ActiveRow(username, accountType, whatsappNumber);
    if i == -1 {
      RowsOfAppend(rows, row, username, accountType);
      RowsOfAppend(rows, row, otherUser, otherType);
      FindNoneMeansNoRows(rows, username, accountType);
    } else {
      var x := rows[i].(status := "active", whatsappNumber := whatsappNumber);
      RowsOfUpdate(rows, i, x, username, accountType);
      RowsOfUpdate(rows, i, x, otherUser, otherType);
      FindSomeMeansRows(rows, username, accountType);
    }
  }

  lemma {:induction false} FindNoneMeansNoRows(rows: seq<SessionRow>, username: string, accountType: string)
    requires FindSession(rows, username, accountType) == -1
    ensures RowsOf(rows, username, accountType) == []
    decreases |rows|
  {
    if rows != [] {
      FindNoneMeansNoRows(rows[1..], username, accountType);
    }
  }

  lemma {:induction false} FindSomeMeansRows(rows: seq<SessionRow>, username: string, accountType: string)
    requires FindSession(rows, username, accountType) >= 0
    ensures RowsOf(rows, username, accountType) != []
    decreases |rows|
  {
    if !Matches(rows[0], username, accountType) {
      FindSomeMeansRows(rows[1..], username, accountType);
    }
  }

  /** Deleting removes every row of the pair and keeps every other pair's rows, in order. */
  lemma {:induction false} DeleteRemovesPairOnly(rows: seq<SessionRow>, username: string, accountType: string,
                                                 otherUser: string, otherType: string)
    ensures RowsOf(RemovePair(rows, username, accountType), username, accountType) == []
    ensures (otherUser, otherType) != (username, accountType) ==>
      RowsOf(RemovePair(rows, username, accountType), otherUser, otherType) == RowsOf(rows, otherUser, otherType)
    decreases |rows|
  {
    if rows != [] {
      DeleteRemovesPairOnly(rows[1..], username, accountType, otherUser, otherType);
    }
  }

  lemma {:induction false} RemovePairIgnoresPairRows(rows: seq<SessionRow>, i: nat, x: SessionRow, username: string, accountType: string)
    requires i <= |rows| && Matches(x, username, accountType)
    requires i < |rows| ==> Matches(rows[i], username, accountType)
    ensures i < |rows| ==> RemovePair(rows[i := x], username, accountType) == RemovePair(rows, username, accountType)
    ensures i == |rows| ==> RemovePair(rows + [x], username, accountType) == RemovePair(rows, username, accountType)
    decreases i
  {
    if i > 0 {
      RemovePairIgnoresPairRows(rows[1..], i - 1, x, username, accountType);
      if i < |rows| {
        assert rows[i := x][1..] == rows[1..][i - 1 := x];
      } else {
        assert (rows + [x])[1..] == rows[1..] + [x];
      }
    } else if |rows| == 0 {
      assert [] + [x] == [x];
    }
  }

  /** Deleting a pair after saving it leaves the table as deleting it without the save would. */
  lemma DeleteUndoesSave(rows: seq<SessionRow>, username: string, accountType: string, whatsappNumber: string)
    ensures RemovePair(Upsert(rows, username, accountType, whatsappNumber), username, accountType)
         == RemovePair(rows, username, accountType)
  {
    var i := FindSession(rows, username, accountType);
    if i == -1 {
      RemovePairIgnoresPairRows(rows, |rows|, ActiveRow(username, accountType, whatsappNumber), username, accountType);
    } else {
      RemovePairIgnoresPairRows(rows, i, rows[i].(status := "active", whatsappNumber := whatsappNumber), username, accountType);
    }
  }

  /** The lookup answers exactly when the pair has a row, and reports the pair it was asked about. */
  lemma LookupIffRecord(rows: seq<SessionRow>, username: string, accountType: string)
    ensures Lookup(rows, username, accountType).Some? <==> RowsOf(rows, username, accountType) != []
    ensures Lookup(rows, username, accountType).Some? ==>
      Lookup(rows, username, accountType).value == AccountInfo("terhubung", "Akun sudah terhubung.", username, accountType)
  {
    if FindSession(rows, username, accountType) == -1 {
      FindNoneMeansNoRows(rows, username, accountType);
    } else {
      FindSomeMeansRows(rows, username, accountType);
    }
  }

  // ---------------------------------------------------------------------------
  // The table

  class SessionTable {
    var rows: seq<SessionRow>

    constructor (rows: seq<SessionRow>)
      ensures this.rows == rows
    {
      this.rows := rows;
    }

    /** `saveSessionToDatabase(account_type, username, whatsapp_number)`; `ok` is whether the database answers. */
    method SaveSessionToDatabase(accountType: string, username: string, whatsappNumber: string, ok: bool)
      returns (reply: StoreReply)
      modifies this`rows
      ensures reply.success == ok
      ensures rows == if ok then Upsert(old(rows), username, accountType, whatsappNumber) else old(rows)
    {
      if !ok {
        return StoreReply(false, "Failed to save session info to database");
      }
      var i := FindSession(rows, username, accountType);
      if i >= 0 {
        rows := rows[i := rows[i].(status := "active", whatsappNumber := whatsappNumber)];
      } else {
        rows := rows + [ActiveRow(username, accountType, whatsappNumber)];
      }
      reply := StoreReply(true, "Session saved successfully");
    }

    /** `deleteSessionFromDatabase(account_type, username)`. */
    method DeleteSessionFromDatabase(accountType: string, username: string, ok: bool) returns (reply: StoreReply)
      modifies this`rows
      ensures reply.success == ok
      ensures rows == if ok then RemovePair(old(rows), username, accountType) else old(rows)
    {
      if !ok {
        return StoreReply(false, "Failed to save session info to database");
      }
      rows := RemovePair(rows, username, accountType);
      reply := StoreReply(true, "Session saved successfully");
    }

    /** `checkAccountInDatabase(account_type, username)`: null when the pair has no row or the database fails. */
    function CheckAccountInDatabase(accountType: string, username: string, ok: bool): (r: Option<AccountInfo>)
      reads this
      ensures r.Some? <==> ok && RowsOf(rows, username, accountType) != []
      ensures r.Some? ==> r.value.status == "terhubung" && r.value.username == username && r.value.accountType == accountType
    {
      LookupIffRecord(rows, username, accountType);
      if ok then Lookup(rows, username, accountType) else None
    }

    /** Whether the pair has a row (what the session manager asks before reconnecting). */
    predicate HasRecord(accountType: string, username: string)
      reads this
    {
      RowsOf(rows, username, accountType) != []
    }
  }
}
