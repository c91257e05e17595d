/**
 * The socket server: the routing of each JSON command to its handler after
 * the required fields are checked, the cap on open connections, and the
 * heartbeat that drops connections that stopped answering pings.
 *
 * A command is the decoded JSON object, a map from field name to value
 * (absent fields are `undefined`). Handlers are named, not run: the routing
 * result is the handler and the arguments it is called with.
 */
module Websocket {
  import opened Optional
  import opened JsSemantics

  // ---------------------------------------------------------------------------
  // validateParams

  /** `params[name]`; absent fields are `undefined`. */
  function Field(params: map<string, JsValue>, name: string): JsValue {
    if name in params then params[name] else Undefined
  }

  /** What is wrong with one required field: missing (falsy), or of the wrong `typeof`. */
  function ParamProblem(params: map<string, JsValue>, name: string, types: map<string, string>): (p: Option<string>)
    ensures p.None? <==> Truthy(Field(params, name)) && (name in types && types[name] != "" ==> TypeOf(Field(params, name)) == types[name])
  {
    if !Truthy(Field(params, name)) then Some("Missing required parameter: " + name)
    else if name in types && types[name] != "" && TypeOf(Field(params, name)) != types[name] then
      Some("Invalid type for " + name + ". Expected " + types[name] + ".")
    else None
  }

  /** The error `validateParams` throws: that of the first required field, in order, that has a problem. */
  function ParamError(params: map<string, JsValue>, required: seq<string>, types: map<string, string>): (e: Option<string>)
    ensures e.None? <==> forall k | 0 <= k < |required| :: ParamProblem(params, required[k], types).None?
    ensures e.Some? ==> exists k | 0 <= k < |required| ::
      && e == ParamProblem(params, required[k], types)
      && forall j | 0 <= j < k :: ParamProblem(params, required[j], types).None?
    decreases |required|
  {
    if required == [] then None
    else if ParamProblem(params, required[0], types).Some? then ParamProblem(params, required[0], types)
    else
      var rest := ParamError(params, required[1..], types);
      assert forall k | 1 <= k < |required| :: required[k] == required[1..][k - 1];
      rest
  }

  /** `validateParams(params, required, types)`: `None` when it returns, the message when it throws. */
  method ValidateParams(params: map<string, JsValue>, required: seq<string>, types: map<string, string>)
    returns (error: Option<string>)
    ensures error == ParamError(params, required, types)
  {
    for i := 0 to |required|
      invariant ParamError(params, required, types) == ParamError(params, required[i..], types)
    {
      ParamErrorFrom(params, required, types, i);
      var problem := ParamProblem(params, required[i], types);
      if problem.Some? {
        return problem;
      }
    }
    assert required[|required|..] == [];
    error := None;
  }

  /** From position `i` on, the first problem is that of field `i`, or else the first one after it. */
  lemma ParamErrorFrom(params: map<string, JsValue>, required: seq<string>, types: map<string, string>, i: nat)
    requires i < |required|
    ensures ParamError(params, required[i..], types)
         == if ParamProblem(params, required[i], types).Some? then ParamProblem(params, required[i], types)
            else ParamError(params, required[i + 1..], types)
  {
    assert required[i..][0] == required[i] && required[i..][1..] == required[i + 1..];
  }

  // ---------------------------------------------------------------------------
  // Routing

  /** One case of the command switch: the fields it checks, their types, the handler, and the fields it passes. */
  datatype ActionEntry = ActionEntry(required: seq<string>, types: map<string, string>, handler: string, args: seq<string>)

  /** The actions the command switch names. */
  const Actions: set<string> := {
    "initialize", "sendMessages", "checkStatus", "sendMessagesMedia", "sendMessagesMediaPDF", "sendMessagesMediaDOCX",
    "disconnect", "login", "register", "cekLogin", "historyWA", "getUnrepliedMessages",
    "activateAssistant", "deactivateAssistant", "deleteAssistant", "createGroup", "sendMessageToGroup", "inviteToGroup",
    "folderSessions", "listSession", "list_orphaned_sessions", "cleanup_orphaned_sessions"}

  /** The actions the switch routes without a token: login, registration and the four session listings. */
  const Unauthenticated: set<string> := {
    "login", "register", "folderSessions", "listSession", "list_orphaned_sessions", "cleanup_orphaned_sessions"}

  /**
   * The command switch as written: exactly the actions above are named,
   * every field a case checks is passed to its handler, every other action
   * checks a token, and only `initialize` checks types.
   */
  function Entry(action: JsValue): (e: Option<ActionEntry>)
    ensures e.Some? <==> action.Str? && action.s in Actions
    ensures e.Some? ==> forall k | 0 <= k < |e.value.required| :: e.value.required[k] in e.value.args
    ensures e.Some? && action.s !in Unauthenticated ==> "token" in e.value.required
    ensures e.Some? && action.s != "initialize" ==> e.value.types == map[]
  {
    if !action.Str? then None
    else match action.s
      case "initialize" =>
        Some(ActionEntry(["account_type", "token"], map["account_type" := "string", "token" := "string"],
                         "initializeHandler", ["account_type", "token"]))
      case "sendMessages" =>
        Some(ActionEntry(["account_type", "typeProject", "data", "token"], map[],
                         "sendTextMessagesHandler", ["account_type", "typeProject", "data", "token"]))
      case "checkStatus" =>
        Some(ActionEntry(["account_type", "token"], map[], "checkStatusHandler", ["account_type", "token"]))
      case "sendMessagesMedia" =>
        Some(ActionEntry(["account_type", "typeProject", "fileUrl", "data", "token"], map[],
                         "sendFileMessagesHandler", ["account_type", "typeProject", "fileUrl", "data", "token"]))
      case "sendMessagesMediaPDF" =>
        Some(ActionEntry(["account_type", "typeProject", "data", "token"], map[],
                         "sendFileMessagesPDFHandler", ["account_type", "typeProject", "data", "token"]))
      case "sendMessagesMediaDOCX" =>
        Some(ActionEntry(["account_type", "typeProject", "data", "token"], map[],
                         "sendFileMessagesDOCXHandler", ["account_type", "typeProject", "data", "token"]))
      case "disconnect" =>
        Some(ActionEntry(["account_type", "token"], map[], "disconnectHandler", ["account_type", "token"]))
      case "login" =>
        Some(ActionEntry(["username", "password"], map[], "loginHandler", ["username", "password"]))
      case "register" =>
        Some(ActionEntry(["username", "password"], map[], "registerHandler", ["username", "password"]))
      case "cekLogin" =>
        Some(ActionEntry(["token"], map[], "checkLogin", ["token"]))
      case "historyWA" =>
        Some(ActionEntry(["account_type", "token", "targetNumber"], map[],
                         "chatHistoryWAHandler", ["account_type", "token", "targetNumber", "limit"]))
      case "getUnrepliedMessages" =>
        Some(ActionEntry(["account_type", "token"], map[], "unrepliedMessagesHandler", ["account_type", "token", "daysAgo"]))
      case "activateAssistant" =>
        Some(ActionEntry(["nomor_pengirim", "token"], map[], "activateAssistantHandler", ["nomor_pengirim", "token"]))
      case "deactivateAssistant" =>
        Some(ActionEntry(["nomor_pengirim", "token"], map[], "deactivateAssistantHandler", ["nomor_pengirim", "token"]))
      case "deleteAssistant" =>
        Some(ActionEntry(["account_type", "token"], map[], "deleteAssistantHandler", ["account_type", "token"]))
      case "createGroup" =>
        Some(ActionEntry(["account_type", "groupName", "participants", "token"], map[],
                         "createGroupHandler", ["account_type", "groupName", "participants", "token"]))
      case "sendMessageToGroup" =>
        Some(ActionEntry(["account_type", "token", "groupId", "messageGroup"], map[],
                         "sendMessageToGroupHandler", ["account_type", "groupId", "messageGroup", "token"]))
      case "inviteToGroup" =>
        Some(ActionEntry(["account_type", "token", "groupId", "participants"], map[],
                         "inviteToGroupHandler", ["account_type", "groupId", "participants", "token"]))
      case "folderSessions" => Some(ActionEntry([], map[], "listSessionFolders", []))
      case "listSession" => Some(ActionEntry([], map[], "getSessionsFromDatabase", []))
      case "list_orphaned_sessions" => Some(ActionEntry([], map[], "listOrphanedSessionFolders", []))
      case "cleanup_orphaned_sessions" => Some(ActionEntry([], map[], "cleanupOrphanedSessionFolders", []))
      case _ => None
  }

  /** The switch with `deleteAssistant` checking and passing the sender number, as the handler expects. */
  function IntendedEntry(action: JsValue): (e: Option<ActionEntry>)
    ensures e.Some? <==> Entry(action).Some?
    ensures action != Str("deleteAssistant") ==> e == Entry(action)
    ensures action == Str("deleteAssistant") ==>
      && e.value.handler == Entry(action).value.handler
      && e.value.required == e.value.args == Entry(Str("deactivateAssistant")).value.required
    ensures e.Some? ==> forall k | 0 <= k < |e.value.required| :: e.value.required[k] in e.value.args
    ensures e.Some? && action.s !in Unauthenticated ==> "token" in e.value.required
  {
    if action == Str("deleteAssistant") then
      Some(ActionEntry(["nomor_pengirim", "token"], map[], "deleteAssistantHandler", ["nomor_pengirim", "token"]))
    else Entry(action)
  }

  /** What one command leads to. */
  datatype Routed = Call(handler: string, args: seq<JsValue>) | Rejected(message: string) | UnknownAction

  /** The values of the named fields, in order. */
  function Args(params: map<string, JsValue>, names: seq<string>): (vs: seq<JsValue>)
    ensures |vs| == |names| && forall k | 0 <= k < |names| :: vs[k] == Field(params, names[k])
  {
    seq(|names|, k requires 0 <= k < |names| => Field(params, names[k]))
  }

  /** The body of the `message` listener once the JSON is parsed, for a given command switch. */
  function RouteWith(entry: Option<ActionEntry>, command: map<string, JsValue>): (r: Routed)
    ensures r.UnknownAction? <==> entry.None?
    ensures r.Call? <==> entry.Some? && ParamError(command, entry.value.required, entry.value.types).None?
    ensures r.Rejected? ==> Some(r.message) == ParamError(command, entry.value.required, entry.value.types)
    ensures r.Call? ==> r.handler == entry.value.handler && r.args == Args(command, entry.value.args)
  {
    match entry
    case None => UnknownAction
    case Some(e) =>
      match ParamError(command, e.required, e.types)
      case Some(m) => Rejected(m)
      case None => Call(e.handler, Args(command, e.args))
  }

  /**
   * The `message` listener as written: only an action outside the switch is
   * unknown, and every handler outside login, registration and the session
   * listings is reached only with a truthy token.
   */
  function RouteAsWritten(command: map<string, JsValue>): (r: Routed)
    ensures r.UnknownAction? <==> !(Field(command, "action").Str? && Field(command, "action").s in Actions)
    ensures r.Call? ==> Field(command, "action").Str?
    ensures r.Call? && Field(command, "action").s !in Unauthenticated ==> Truthy(Field(command, "token"))
  {
    var e := Entry(Field(command, "action"));
    TokenChecked(e, command);
    RouteWith(e, command)
  }

  /** The `message` listener with `deleteAssistant` corrected; every other action is routed as written. */
  function Route(command: map<string, JsValue>): (r: Routed)
    ensures r.UnknownAction? <==> !(Field(command, "action").Str? && Field(command, "action").s in Actions)
    ensures r.Call? ==> Field(command, "action").Str?
    ensures r.Call? && Field(command, "action").s !in Unauthenticated ==> Truthy(Field(command, "token"))
    ensures Field(command, "action") != Str("deleteAssistant") ==> r == RouteAsWritten(command)
  {
    var e := IntendedEntry(Field(command, "action"));
    TokenChecked(e, command);
    RouteWith(e, command)
  }

  /** A case that checks the token calls its handler only with a truthy one. */
  lemma TokenChecked(e: Option<ActionEntry>, command: map<string, JsValue>)
    ensures e.Some? && "token" in e.value.required && RouteWith(e, command).Call? ==> Truthy(Field(command, "token"))
  {
    if e.Some? && "token" in e.value.required && RouteWith(e, command).Call? {
      var k :| 0 <= k < |e.value.required| && e.value.required[k] == "token";
      assert ParamProblem(command, e.value.required[k], e.value.types).None?;
    }
  }

  /**
   * A command reaches its handler only with every required field present
   * and truthy; `initialize` also gets its account type and token as
   * strings.
   */
  lemma RoutedCommandsCarryRequiredFields(command: map<string, JsValue>)
    requires Route(command).Call?
    ensures var e := IntendedEntry(Field(command, "action")).value;
      forall k | 0 <= k < |e.required| :: Truthy(Field(command, e.required[k]))
    ensures Field(command, "action") == Str("initialize") ==>
      TypeOf(Field(command, "account_type")) == "string" && TypeOf(Field(command, "token")) == "string"
  {
    var e := IntendedEntry(Field(command, "action")).value;
    if Field(command, "action") == Str("initialize") {
      assert ParamProblem(command, e.required[0], e.types).None?;
      assert ParamProblem(command, e.required[1], e.types).None?;
    }
  }

  /** An action the switch does not name is answered 'Unknown action provided.'; every named one is routed or rejected. */
  lemma UnknownActionsOnly(command: map<string, JsValue>)
    ensures Route(command).UnknownAction? <==> IntendedEntry(Field(command, "action")).None?
    ensures RouteAsWritten(command).UnknownAction? <==> Route(command).UnknownAction?
  {
  }

  /**
   * As written, `deleteAssistant` requires `account_type` and hands it to
   * the handler as the sender number: a command carrying the number and no
   * account type is rejected, and one carrying both deletes the row of the
   * account type.
   */
  lemma DeleteAssistantAsWritten(token: JsValue, number: string, accountType: string)
    requires Truthy(token) && number != "" && accountType != ""
    ensures var command := map["action" := Str("deleteAssistant"), "nomor_pengirim" := Str(number), "token" := token];
      RouteAsWritten(command) == Rejected("Missing required parameter: " + "account_type")
    ensures var command := map["action" := Str("deleteAssistant"), "nomor_pengirim" := Str(number),
                               "account_type" := Str(accountType), "token" := token];
      RouteAsWritten(command) == Call("deleteAssistantHandler", [Str(accountType), token])
  {
    var e := ActionEntry(["account_type", "token"], map[], "deleteAssistantHandler", ["account_type", "token"]);
    assert Entry(Str("deleteAssistant")) == Some(e);
    var c1 := map["action" := Str("deleteAssistant"), "nomor_pengirim" := Str(number), "token" := token];
    assert Field(c1, "action") == Str("deleteAssistant") && Field(c1, "account_type") == Undefined;
    assert e.required[0] == "account_type";
    assert ParamProblem(c1, "account_type", e.types) == Some("Missing required parameter: " + "account_type");
    assert ParamError(c1, e.required, e.types) == Some("Missing required parameter: " + "account_type");
    var c2 := map["action" := Str("deleteAssistant"), "nomor_pengirim" := Str(number),
                  "account_type" := Str(accountType), "token" := token];
    assert Field(c2, "action") == Str("deleteAssistant");
    assert Field(c2, "account_type") == Str(accountType) && Field(c2, "token") == token;
    assert ParamError(c2, e.required, e.types) == None;
    assert Args(c2, e.args) == [Str(accountType), token];
  }

  /** Corrected, `deleteAssistant` passes the sender number, as `deactivateAssistant` does. */
  lemma DeleteAssistantPassesNumber(command: map<string, JsValue>)
    requires Field(command, "action") == Str("deleteAssistant")
    ensures var deactivate := command["action" := Str("deactivateAssistant")];
      && (Route(command).Call? <==> Route(deactivate).Call?)
      && (Route(command).Call? ==>
            Route(command) == Call("deleteAssistantHandler", [Field(command, "nomor_pengirim"), Field(command, "token")])
            && Route(command).args == Route(deactivate).args)
  {
    var deactivate := command["action" := Str("deactivateAssistant")];
    var names := ["nomor_pengirim", "token"];
    assert ParamProblem(command, "nomor_pengirim", map[]) == ParamProblem(deactivate, "nomor_pengirim", map[]);
    assert ParamProblem(command, "token", map[]) == ParamProblem(deactivate, "token", map[]);
    assert Args(command, names) == Args(deactivate, names);
  }

  // ---------------------------------------------------------------------------
  // Connections

  /** MAX_CLIENTS */
  const MaxClients: nat := 100

  /**
   * The `connection` check as written: the server has already added the new
   * socket to `wss.clients`, so the size it compares is the open
   * connections plus one.
   */
  predicate AcceptsAsWritten(open: nat) {
    open + 1 < MaxClients
  }

  /** The check as evidently intended: room for MAX_CLIENTS connections. */
  predicate Accepts(open: nat) {
    open < MaxClients
  }

  /** As written the hundredth connection is refused: at most 99 are ever open. */
  lemma ConnectionCapAsWritten()
    ensures AcceptsAsWritten(98) && !AcceptsAsWritten(99)
    ensures forall open: nat | AcceptsAsWritten(open) :: open + 1 <= MaxClients - 1
  {
  }

  /** Corrected, exactly MAX_CLIENTS connections fit. */
  lemma ConnectionCap()
    ensures Accepts(MaxClients - 1) && !Accepts(MaxClients)
    ensures forall open: nat | Accepts(open) :: open + 1 <= MaxClients
  {
  }

  /** The liveness sweep: connections that did not answer since the last sweep go; the others are pinged and marked. */
  function Swept(conns: seq<nat>, alive: map<nat, bool>): (r: (seq<nat>, map<nat, bool>))
    requires forall c | c in conns :: c in alive
    ensures forall c | c in r.0 :: c in conns && alive[c] && c in r.1 && !r.1[c]
    ensures forall c | c in conns && alive[c] :: c in r.0
    decreases |conns|
  {
    if conns == [] then ([], map[])
    else
      var n := |conns| - 1;
      var before := Swept(conns[..n], alive);
      if alive[conns[n]] then (before.0 + [conns[n]], before.1[conns[n] := false]) else before
  }

  /** The open connections, in the order `wss.clients` iterates them, with each one's `isAlive`. */
  class Hub {
    var conns: seq<nat>
    var alive: map<nat, bool>

    ghost predicate Valid()
      reads this
    {
      && (forall i, j | 0 <= i < j < |conns| :: conns[i] != conns[j])
      && (forall c :: c in alive <==> c in conns)
      && |conns| <= MaxClients
    }

    constructor ()
      ensures Valid() && conns == [] && alive == map[]
    {
      conns := [];
      alive := map[];
    }

    /** The `connection` event as written; `accepted` is false when the socket was told to go and terminated. */
    method ConnectAsWritten(id: nat) returns (accepted: bool)
      requires Valid() && id !in conns
      modifies this
      ensures Valid()
      ensures accepted == AcceptsAsWritten(|old(conns)|)
      ensures conns == (if accepted then old(conns) + [id] else old(conns))
      ensures alive == (if accepted then old(alive)[id := true] else old(alive))
    {
      accepted := AcceptsAsWritten(|conns|);
      if accepted {
        conns := conns + [id];
        alive := alive[id := true];
      }
    }

    /** The `connection` event with room for MAX_CLIENTS connections. */
    method Connect(id: nat) returns (accepted: bool)
      requires Valid() && id !in conns
      modifies this
      ensures Valid()
      ensures accepted == Accepts(|old(conns)|)
      ensures conns == (if accepted then old(conns) + [id] else old(conns))
      ensures alive == (if accepted then old(alive)[id := true] else old(alive))
    {
      accepted := Accepts(|conns|);
      if accepted {
        conns := conns + [id];
        alive := alive[id := true];
      }
    }

    /** The `pong` listener. */
    method Pong(id: nat)
      requires Valid() && id in conns
      modifies this`alive
      ensures Valid() && alive == old(alive)[id := true]
    {
      alive := alive[id := true];
    }

    /** One tick of the heartbeat interval; `pinged` are the connections sent a ping, in order. */
    method Sweep() returns (pinged: seq<nat>)
      requires Valid()
      modifies this
      ensures Valid()
      ensures (conns, alive) == Swept(old(conns), old(alive)) && pinged == conns
    {
      var kept: seq<nat> := [];
      var marks: map<nat, bool> := map[];
      for i := 0 to |conns|
        invariant (kept, marks) == Swept(conns[..i], alive)
      {
        assert conns[..i + 1][..i] == conns[..i];
        if alive[conns[i]] {
          kept := kept + [conns[i]];
          marks := marks[conns[i] := false];
        }
      }
      assert conns[..|conns|] == conns;
      SweptKeepsHub(conns, alive);
      conns, alive := kept, marks;
      pinged := kept;
    }
  }

  /** A sweep keeps the hub well formed: the survivors stay distinct, in order, and each has a mark. */
  lemma {:induction false} SweptKeepsHub(conns: seq<nat>, alive: map<nat, bool>)
    requires forall c | c in conns :: c in alive
    requires forall i, j | 0 <= i < j < |conns| :: conns[i] != conns[j]
    ensures var r := Swept(conns, alive);
      && (forall i, j | 0 <= i < j < |r.0| :: r.0[i] != r.0[j])
      && (forall c :: c in r.1 <==> c in r.0)
      && |r.0| <= |conns|
    decreases |conns|
  {
    if conns != [] {
      var n := |conns| - 1;
      SweptKeepsHub(conns[..n], alive);
      var before := Swept(conns[..n], alive);
      assert conns[n] !in conns[..n];
      assert conns[n] !in before.0;
    }
  }

  /**
   * Two sweeps without a pong in between drop every connection: the first
   * marks each survivor as not alive, and the second terminates it.
   */
  lemma TwoSweepsWithoutPong(conns: seq<nat>, alive: map<nat, bool>)
    requires forall c | c in conns :: c in alive
    ensures var once := Swept(conns, alive);
      forall c :: c !in Swept(once.0, once.1).0
  {
  }
}
