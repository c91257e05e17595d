/**
 * The assistant switch of a sender number: the `assistants` table holds, per
 * sender chat id, whether the auto-reply assistant is 'aktif' or
 * 'nonaktif'. The message listener of the session service answers incoming
 * messages only for a chat id with an 'aktif' row (`msg.to`, that is
 * `<digits>@c.us`); the three socket commands switch that row on, off, or
 * delete it.
 *
 * `findOne` is the first matching row. Each database write either completes
 * or throws, as the `Attempt` passed in says.
 */
module AssistantHandler {
  import opened Optional
  import opened JsSemantics
  import opened WaService
  import opened WsCommon

  /** A row of `assistants`: `asst_id`, `nomor_pengirim`, `status`. */
  datatype Assistant = Assistant(id: nat, nomorPengirim: string, status: string)

  /** The frame a command sends; `LoginFailed` stands for the frame `checkLogin` sends itself. */
  datatype AssistantReply = LoginFailed | Success(message: string) | Failure(message: string, error: Option<string>)

  const Active: string := "aktif"
  const Inactive: string := "nonaktif"
  const NotFound: string := "Assistant not found."

  /** The position of the first row for `nomor` (`findOne`). */
  function Find(rows: seq<Assistant>, nomor: string): (r: Option<nat>)
    ensures r.Some? ==> r.value < |rows| && rows[r.value].nomorPengirim == nomor
    ensures r.Some? ==> forall j | 0 <= j < r.value :: rows[j].nomorPengirim != nomor
    ensures r.None? ==> forall j | 0 <= j < |rows| :: rows[j].nomorPengirim != nomor
    decreases |rows|
  {
    if rows == [] then None
    else if rows[0].nomorPengirim == nomor then Some(0)
    else
      var rest := Find(rows[1..], nomor);
      if rest.None? then None else Some(rest.value + 1)
  }

  /** The message listener's lookup `findOne({ nomor_pengirim, status: 'aktif' })` finds a row. */
  predicate ServesChat(rows: seq<Assistant>, chatId: string) {
    exists i | 0 <= i < |rows| :: rows[i].nomorPengirim == chatId && rows[i].status == Active
  }

  /** No two rows share a sender number. */
  predicate DistinctNumbers(rows: seq<Assistant>) {
    forall i, j | 0 <= i < j < |rows| :: rows[i].nomorPengirim != rows[j].nomorPengirim
  }

  /** Every row names a chat id `<number>@c.us`, as the rows the listener looks up do. */
  predicate AllChatIds(rows: seq<Assistant>) {
    forall i | 0 <= i < |rows| :: |rows[i].nomorPengirim| >= 5 && rows[i].nomorPengirim[|rows[i].nomorPengirim| - 5..] == "@c.us"
  }

  function WithStatus(rows: seq<Assistant>, i: nat, status: string): (r: seq<Assistant>)
    requires i < |rows|
    ensures |r| == |rows| && r[i].status == status && r[i].nomorPengirim == rows[i].nomorPengirim
    ensures forall j | 0 <= j < |rows| && j != i :: r[j] == rows[j]
  {
    rows[i := rows[i].(status := status)]
  }

  function Without(rows: seq<Assistant>, i: nat): (r: seq<Assistant>)
    requires i < |rows|
    ensures |r| == |rows| - 1
    ensures forall j | 0 <= j < i :: r[j] == rows[j]
    ensures forall j | i <= j < |r| :: r[j] == rows[j + 1]
  {
    rows[..i] + rows[i + 1..]
  }

  // ---------------------------------------------------------------------------
  // The three commands on the table's rows

  /**
   * `activateAssistantHandler` as written: the row is looked up by the raw
   * number; when there is none, the `create` call reads the undeclared
   * variable `nomor`, and the ReferenceError ends in the failure frame.
   */
  function ActivationAsWritten(rows: seq<Assistant>, nomorPengirim: string, write: Attempt): (r: (seq<Assistant>, AssistantReply))
    ensures r.1.Success? <==> Find(rows, nomorPengirim).Some? && write.Succeeds?
    ensures Find(rows, nomorPengirim).None? ==> r == (rows, Failure("Failed to activate assistant.", Some("nomor is not defined")))
    ensures r.1.Failure? ==> r.0 == rows
    ensures |r.0| == |rows|
  {
    match Find(rows, nomorPengirim)
    case None => (rows, Failure("Failed to activate assistant.", Some("nomor is not defined")))
    case Some(i) =>
      if write.Throws? then (rows, Failure("Failed to activate assistant.", Some(write.message)))
      else (WithStatus(rows, i, Active), Success("Assistant activated successfully."))
  }

  /**
   * `activateAssistantHandler` as evidently intended: the row of the chat id
   * `<number>@c.us` (the id the other two commands and the listener use) is
   * switched on, or created switched on.
   */
  function Activation(rows: seq<Assistant>, nextId: nat, nomorPengirim: string, write: Attempt): (r: (seq<Assistant>, AssistantReply))
    ensures r.1.Success? <==> write.Succeeds?
    ensures write.Throws? ==> r == (rows, Failure("Failed to activate assistant.", Some(write.message)))
    ensures write.Succeeds? ==> |r.0| == |rows| + (if Find(rows, nomorPengirim + "@c.us").None? then 1 else 0)
  {
    var nomor := nomorPengirim + "@c.us";
    if write.Throws? then (rows, Failure("Failed to activate assistant.", Some(write.message)))
    else match Find(rows, nomor)
      case Some(i) => (WithStatus(rows, i, Active), Success("Assistant activated successfully."))
      case None => (rows + [Assistant(nextId, nomor, Active)], Success("Assistant activated successfully."))
  }

  /** `deactivateAssistantHandler` */
  function Deactivation(rows: seq<Assistant>, nomorPengirim: string, write: Attempt): (r: (seq<Assistant>, AssistantReply))
    ensures r.1.Success? <==> Find(rows, nomorPengirim + "@c.us").Some? && write.Succeeds?
    ensures Find(rows, nomorPengirim + "@c.us").None? ==> r == (rows, Failure(NotFound, None))
    ensures r.1.Failure? ==> r.0 == rows
    ensures |r.0| == |rows|
  {
    match Find(rows, nomorPengirim + "@c.us")
    case None => (rows, Failure(NotFound, None))
    case Some(i) =>
      if write.Throws? then (rows, Failure("Failed to deactivate assistant.", Some(write.message)))
      else (WithStatus(rows, i, Inactive), Success("Assistant deactivated successfully."))
  }

  /** `deleteAssistantHandler` */
  function Deletion(rows: seq<Assistant>, nomorPengirim: string, write: Attempt): (r: (seq<Assistant>, AssistantReply))
    ensures r.1.Success? <==> Find(rows, nomorPengirim + "@c.us").Some? && write.Succeeds?
    ensures Find(rows, nomorPengirim + "@c.us").None? ==> r == (rows, Failure(NotFound, None))
    ensures r.1.Failure? ==> r.0 == rows
    ensures |r.0| == |rows| - (if r.1.Success? then 1 else 0)
  {
    match Find(rows, nomorPengirim + "@c.us")
    case None => (rows, Failure(NotFound, None))
    case Some(i) =>
      if write.Throws? then (rows, Failure("Failed to delete assistant.", Some(write.message)))
      else (Without(rows, i), Success("Assistant deleted successfully."))
  }

  // ---------------------------------------------------------------------------
  // What the commands do to the listener

  /**
   * The activation as written never works on the rows the listener reads:
   * when every row is a chat id and the number has no '@', the raw number
   * matches no row, nothing is created, and the command fails.
   */
  lemma ActivationAsWrittenFailsOnChatIds(rows: seq<Assistant>, nomorPengirim: string, write: Attempt)
    requires AllChatIds(rows) && '@' !in nomorPengirim
    ensures ActivationAsWritten(rows, nomorPengirim, write) == (rows, Failure("Failed to activate assistant.", Some("nomor is not defined")))
    ensures ServesChat(ActivationAsWritten(rows, nomorPengirim, write).0, nomorPengirim + "@c.us") == ServesChat(rows, nomorPengirim + "@c.us")
  {
    forall i | 0 <= i < |rows|
      ensures rows[i].nomorPengirim != nomorPengirim
    {
      var n := rows[i].nomorPengirim;
      assert n[|n| - 5] == '@';
    }
  }

  /** The smallest instance: a fresh table, and the number 62812. */
  lemma ActivationAsWrittenExample()
    ensures ActivationAsWritten([], "62812", Succeeds).1.Failure?
    ensures !ServesChat(ActivationAsWritten([], "62812", Succeeds).0, "62812@c.us")
    ensures ServesChat(Activation([], 0, "62812", Succeeds).0, "62812@c.us")
  {
    assert Activation([], 0, "62812", Succeeds).0[0] == Assistant(0, "62812@c.us", Active);
  }

  /**
   * As written, only a row stored under the raw number can be switched on:
   * it becomes 'aktif' and every other row stays as it was; no row is ever
   * added, and a failure changes nothing.
   */
  lemma ActivationAsWrittenOnRawNumber(rows: seq<Assistant>, nomorPengirim: string, write: Attempt)
    ensures var r := ActivationAsWritten(rows, nomorPengirim, write);
      && |r.0| == |rows|
      && (r.1.Success? <==> Find(rows, nomorPengirim).Some? && write.Succeeds?)
      && (r.1.Success? ==> ServesChat(r.0, nomorPengirim))
      && (r.1.Failure? ==> r.0 == rows)
      && forall j | 0 <= j < |rows| && rows[j].nomorPengirim != nomorPengirim :: r.0[j] == rows[j]
  {
    var r := ActivationAsWritten(rows, nomorPengirim, write);
    if r.1.Success? {
      var i := Find(rows, nomorPengirim).value;
      assert r.0[i].nomorPengirim == nomorPengirim && r.0[i].status == Active;
    }
  }

  /** A completed activation makes the listener answer the chat, and keeps the numbers distinct. */
  lemma ActivationServesChat(rows: seq<Assistant>, nextId: nat, nomorPengirim: string)
    requires DistinctNumbers(rows)
    ensures var after := Activation(rows, nextId, nomorPengirim, Succeeds).0;
      ServesChat(after, nomorPengirim + "@c.us") && DistinctNumbers(after)
  {
    var nomor := nomorPengirim + "@c.us";
    var after := Activation(rows, nextId, nomorPengirim, Succeeds).0;
    match Find(rows, nomor)
    case Some(i) =>
      assert after[i].nomorPengirim == nomor && after[i].status == Active;
    case None =>
      assert after[|rows|].nomorPengirim == nomor && after[|rows|].status == Active;
  }

  /**
   * With distinct numbers, a completed deactivation or deletion stops the
   * listener answering the chat; a deletion removes only that row.
   */
  lemma DeactivationSilencesChat(rows: seq<Assistant>, nomorPengirim: string)
    requires DistinctNumbers(rows)
    ensures !ServesChat(Deactivation(rows, nomorPengirim, Succeeds).0, nomorPengirim + "@c.us")
    ensures DistinctNumbers(Deactivation(rows, nomorPengirim, Succeeds).0)
  {
    var nomor := nomorPengirim + "@c.us";
    var after := Deactivation(rows, nomorPengirim, Succeeds).0;
    if Find(rows, nomor).Some? {
      var i := Find(rows, nomor).value;
      forall j | 0 <= j < |after| && j != i
        ensures after[j].nomorPengirim != nomor
      {
        assert after[j] == rows[j];
      }
    }
  }

  lemma DeletionRemovesChat(rows: seq<Assistant>, nomorPengirim: string)
    requires DistinctNumbers(rows)
    ensures var after := Deletion(rows, nomorPengirim, Succeeds).0;
      && Find(after, nomorPengirim + "@c.us").None?
      && DistinctNumbers(after)
      && forall r | r in rows && r.nomorPengirim != nomorPengirim + "@c.us" :: r in after
  {
    var nomor := nomorPengirim + "@c.us";
    if Find(rows, nomor).Some? {
      var i := Find(rows, nomor).value;
      var after := Without(rows, i);
      forall j | 0 <= j < |after|
        ensures after[j].nomorPengirim != nomor
      {
        if j < i {
          assert after[j] == rows[j];
        } else {
          assert after[j] == rows[j + 1];
        }
      }
      forall r | r in rows && r.nomorPengirim != nomor
        ensures r in after
      {
        var k :| 0 <= k < |rows| && rows[k] == r;
        if k < i {
          assert after[k] == r;
        } else {
          assert k != i && after[k - 1] == r;
        }
      }
    }
  }

  // ---------------------------------------------------------------------------
  // The table

  /** The `assistants` table, with the next `asst_id` the auto-increment hands out. */
  class AssistantTable {
    var rows: seq<Assistant>
    var nextId: nat

    ghost predicate Valid()
      reads this
    {
      DistinctNumbers(rows) && forall i | 0 <= i < |rows| :: rows[i].id < nextId
    }

    constructor ()
      ensures rows == [] && Valid()
    {
      rows := [];
      nextId := 0;
    }

    /** `activateAssistantHandler` as written. */
    method ActivateAsWritten(decoded: Option<Claims>, nomorPengirim: string, write: Attempt) returns (reply: AssistantReply)
      requires Valid()
      modifies this`rows
      ensures Valid()
      ensures decoded.None? ==> reply == LoginFailed && rows == old(rows)
      ensures decoded.Some? ==> (rows, reply) == ActivationAsWritten(old(rows), nomorPengirim, write)
    {
      if decoded.None? {
        return LoginFailed;
      }
      var assistant := Find(rows, nomorPengirim);
      if assistant.Some? {
        if write.Throws? {
          return Failure("Failed to activate assistant.", Some(write.message));
        }
        rows := WithStatus(rows, assistant.value, Active);
        return Success("Assistant activated successfully.");
      }
      reply := Failure("Failed to activate assistant.", Some("nomor is not defined"));
    }

    /** `activateAssistantHandler` as evidently intended. */
    method Activate(decoded: Option<Claims>, nomorPengirim: string, write: Attempt) returns (reply: AssistantReply)
      requires Valid()
      modifies this
      ensures Valid()
      ensures decoded.None? ==> reply == LoginFailed && rows == old(rows)
      ensures decoded.Some? ==> (rows, reply) == Activation(old(rows), old(nextId), nomorPengirim, write)
    {
      if decoded.None? {
        return LoginFailed;
      }
      if write.Throws? {
        return Failure("Failed to activate assistant.", Some(write.message));
      }
      var nomor := nomorPengirim + "@c.us";
      var assistant := Find(rows, nomor);
      if assistant.Some? {
        rows := WithStatus(rows, assistant.value, Active);
      } else {
        rows := rows + [Assistant(nextId, nomor, Active)];
        nextId := nextId + 1;
      }
      reply := Success("Assistant activated successfully.");
    }

    /** `deactivateAssistantHandler` */
    method Deactivate(decoded: Option<Claims>, nomorPengirim: string, write: Attempt) returns (reply: AssistantReply)
      requires Valid()
      modifies this`rows
      ensures Valid()
      ensures decoded.None? ==> reply == LoginFailed && rows == old(rows)
      ensures decoded.Some? ==> (rows, reply) == Deactivation(old(rows), nomorPengirim, write)
    {
      if decoded.None? {
        return LoginFailed;
      }
      var assistant := Find(rows, nomorPengirim + "@c.us");
      if assistant.None? {
        return Failure(NotFound, None);
      }
      if write.Throws? {
        return Failure("Failed to deactivate assistant.", Some(write.message));
      }
      rows := WithStatus(rows, assistant.value, Inactive);
      reply := Success("Assistant deactivated successfully.");
    }

    /** `deleteAssistantHandler` */
    method Delete(decoded: Option<Claims>, nomorPengirim: string, write: Attempt) returns (reply: AssistantReply)
      requires Valid()
      modifies this`rows
      ensures Valid()
      ensures decoded.None? ==> reply == LoginFailed && rows == old(rows)
      ensures decoded.Some? ==> (rows, reply) == Deletion(old(rows), nomorPengirim, write)
    {
      if decoded.None? {
        return LoginFailed;
      }
      var assistant := Find(rows, nomorPengirim + "@c.us");
      if assistant.None? {
        return Failure(NotFound, None);
      }
      if write.Throws? {
        return Failure("Failed to delete assistant.", Some(write.message));
      }
      DeletionRemovesChat(rows, nomorPengirim);
      rows := Without(rows, assistant.value);
      reply := Success("Assistant deleted successfully.");
    }
  }
}
