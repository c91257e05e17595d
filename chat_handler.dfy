/**
 * The chat queries of the socket: the messages this account sent that were
 * not answered in the last `daysAgo` days, and the recent history with one
 * contact. The handler checks and defaults the arguments, asks the session
 * service, and wraps every error in one failure frame.
 *
 * What the two service queries return (or throw) is a parameter.
 */
module ChatHandler {
  import opened Optional
  import opened JsSemantics
  import opened WsCommon

  /** The `options` object: absent fields are `Undefined`. */
  datatype ChatOptions = ChatOptions(action: string, targetNumber: JsValue, limit: JsValue, daysAgo: JsValue)

  /** A service query that resolves to a value or throws. */
  datatype Fetch<T> = Fetched(value: T) | FetchThrows(message: string)

  /** The object `getLastOutgoingMessages` resolves to. */
  datatype UnrepliedResult = UnrepliedResult(status: JsValue, message: JsValue, data: JsValue, date: JsValue)

  /** The service query the handler makes, with the arguments it passes. */
  datatype ChatQuery = UnrepliedQuery(daysAgo: int) | HistoryQuery(targetNumber: string, limit: int)

  /** The frame the handler sends; `LoginFailed` stands for the frame `checkLogin` sends itself. */
  datatype ChatFrame =
    | LoginFailed
    /** `data` is `None` when the frame carries the whole result (`result.data || result`). */
    | Unreplied(status: JsValue, message: JsValue, data: Option<JsValue>, date: JsValue)
    | History(messages: JsValue)
    | RequestFailed(error: string)

  const DaysAgoInvalid: string := "daysAgo must be a non-negative number"
  const TargetInvalid: string := "targetNumber is required and must be a string"
  const LimitInvalid: string := "limit must be a positive number"
  const NoHistory: string := "No chat history found for the given target number"
  const InvalidAction: string := "Invalid action specified"

  /** `v !== undefined ? parseInt(v, 10) : fallback`; `None` is NaN. */
  function IntArgument(v: JsValue, fallback: int): Option<int> {
    if v.Undefined? then Some(fallback) else ParseInt(ToString(v))
  }

  /** `daysAgo` after defaulting, when it is a non-negative number. */
  function DaysAgo(options: ChatOptions): (d: Option<int>)
    ensures d.Some? ==> d.value >= 0
    ensures options.daysAgo.Undefined? ==> d == Some(2)
    ensures !options.daysAgo.Undefined? ==>
      (d.Some? <==> ParseInt(ToString(options.daysAgo)).Some? && ParseInt(ToString(options.daysAgo)).value >= 0)
  {
    var days := IntArgument(options.daysAgo, 2);
    if days.None? || days.value < 0 then None else days
  }

  /** `limit` after defaulting, when it is a positive number. */
  function Limit(options: ChatOptions): (l: Option<int>)
    ensures l.Some? ==> l.value > 0
    ensures options.limit.Undefined? ==> l == Some(10)
    ensures !options.limit.Undefined? ==>
      (l.Some? <==> ParseInt(ToString(options.limit)).Some? && ParseInt(ToString(options.limit)).value > 0)
  {
    var limit := IntArgument(options.limit, 10);
    if limit.None? || limit.value <= 0 then None else limit
  }

  /** The service query `chatHandler` makes, if its arguments pass. */
  function QueryFor(options: ChatOptions): (q: Option<ChatQuery>)
    ensures q.Some? && q.value.UnrepliedQuery? <==> options.action == "unrepliedMessages" && DaysAgo(options).Some?
    ensures q.Some? && q.value.HistoryQuery? <==>
      options.action == "chatHistory" && Truthy(options.targetNumber) && TypeOf(options.targetNumber) == "string" && Limit(options).Some?
    ensures q.Some? && q.value.UnrepliedQuery? ==> q.value.daysAgo == DaysAgo(options).value
    ensures q.Some? && q.value.HistoryQuery? ==>
      q.value.targetNumber == options.targetNumber.s && q.value.targetNumber != "" && q.value.limit == Limit(options).value
  {
    if options.action == "unrepliedMessages" then
      if DaysAgo(options).None? then None else Some(UnrepliedQuery(DaysAgo(options).value))
    else if options.action == "chatHistory" then
      if !Truthy(options.targetNumber) || TypeOf(options.targetNumber) != "string" then None
      else if Limit(options).None? then None
      else Some(HistoryQuery(options.targetNumber.s, Limit(options).value))
    else None
  }

  /** The error message of an argument check that fails; the action decides which check. */
  function ArgumentError(options: ChatOptions): string {
    if options.action == "unrepliedMessages" then DaysAgoInvalid
    else if options.action == "chatHistory" then
      if !Truthy(options.targetNumber) || TypeOf(options.targetNumber) != "string" then TargetInvalid else LimitInvalid
    else InvalidAction
  }

  /**
   * `chatHandler`: the frame sent, and the service query made (if any).
   * `unreplied` and `history` are what the two queries give when made.
   */
  function Chat(decoded: Option<Claims>, options: ChatOptions, unreplied: Fetch<UnrepliedResult>, history: Fetch<JsValue>)
    : (r: (ChatFrame, Option<ChatQuery>))
    ensures decoded.None? ==> r == (LoginFailed, None)
    ensures decoded.Some? ==> r.1 == QueryFor(options)
    ensures decoded.Some? && r.1.None? ==> r.0 == RequestFailed(ArgumentError(options))
    ensures r.0.Unreplied? <==> decoded.Some? && r.1.Some? && r.1.value.UnrepliedQuery? && unreplied.Fetched?
    ensures r.0.History? <==> decoded.Some? && r.1.Some? && r.1.value.HistoryQuery? && history.Fetched? && Truthy(history.value)
    ensures r.0.History? ==> r.0.messages == history.value
    ensures r.0.Unreplied? ==>
      && r.0.status == (if Truthy(unreplied.value.status) then unreplied.value.status else Str("success"))
      && r.0.data == (if Truthy(unreplied.value.data) then Some(unreplied.value.data) else None)
  {
    if decoded.None? then (LoginFailed, None)
    else
      var query := QueryFor(options);
      if query.None? then (RequestFailed(ArgumentError(options)), None)
      else match query.value
        case UnrepliedQuery(_) =>
          (match unreplied
           case FetchThrows(m) => RequestFailed(m)
           case Fetched(result) =>
             Unreplied(if Truthy(result.status) then result.status else Str("success"),
                       if Truthy(result.message) then result.message else Str("Unreplied messages retrieved successfully"),
                       if Truthy(result.data) then Some(result.data) else None,
                       result.date), query)
        case HistoryQuery(_, _) =>
          (match history
           case FetchThrows(m) => RequestFailed(m)
           case Fetched(h) => if Truthy(h) then History(h) else RequestFailed(NoHistory), query)
  }

  /** `unrepliedMessagesHandler`: only ever the unreplied query, and never a history frame. */
  function UnrepliedMessages(decoded: Option<Claims>, daysAgo: JsValue, unreplied: Fetch<UnrepliedResult>)
    : (r: (ChatFrame, Option<ChatQuery>))
    ensures decoded.None? ==> r == (LoginFailed, None)
    ensures r.1.Some? ==> r.1.value.UnrepliedQuery?
    ensures !r.0.History?
    ensures r.0.Unreplied? <==> r.1.Some? && unreplied.Fetched?
  {
    Chat(decoded, ChatOptions("unrepliedMessages", Undefined, Undefined, daysAgo), unreplied, FetchThrows(""))
  }

  /** `chatHistoryWAHandler`: only ever the history query, and never an unreplied frame. */
  function ChatHistory(decoded: Option<Claims>, targetNumber: JsValue, limit: JsValue, history: Fetch<JsValue>)
    : (r: (ChatFrame, Option<ChatQuery>))
    ensures decoded.None? ==> r == (LoginFailed, None)
    ensures r.1.Some? ==> r.1.value.HistoryQuery?
    ensures !r.0.Unreplied?
    ensures r.0.History? <==> r.1.Some? && history.Fetched? && Truthy(history.value)
  {
    Chat(decoded, ChatOptions("chatHistory", targetNumber, limit, Undefined), FetchThrows(""), history)
  }

  /** A JSON number reaches `parseInt` as its decimal rendering, which parses back to it. */
  lemma IntArgumentOfNumber(n: int, fallback: int)
    ensures IntArgument(Num(n), fallback) == Some(n)
  {
    ParseIntOfIntToString(n);
  }

  /**
   * An omitted `daysAgo` asks for two days, and any non-negative JSON number
   * is passed through unchanged; a negative one is refused.
   */
  lemma UnrepliedArguments(decoded: Option<Claims>, n: int, unreplied: Fetch<UnrepliedResult>)
    requires decoded.Some?
    ensures UnrepliedMessages(decoded, Undefined, unreplied).1 == Some(UnrepliedQuery(2))
    ensures n >= 0 ==> UnrepliedMessages(decoded, Num(n), unreplied).1 == Some(UnrepliedQuery(n))
    ensures n < 0 ==> UnrepliedMessages(decoded, Num(n), unreplied) == (RequestFailed(DaysAgoInvalid), None)
  {
    var o := ChatOptions("unrepliedMessages", Undefined, Undefined, Num(n));
    IntArgumentOfNumber(n, 2);
    assert DaysAgo(o) == if n >= 0 then Some(n) else None;
  }

  /**
   * A history request names a non-empty string target, and an omitted
   * limit asks for ten messages; a falsy history (`null`, `undefined`, an
   * empty string, zero) is reported as an error, while any object the
   * service resolves to, an empty array included, is sent as the history.
   */
  lemma HistoryDefaults(decoded: Option<Claims>, target: string, history: Fetch<JsValue>)
    requires decoded.Some?
    ensures target == "" ==> ChatHistory(decoded, Str(target), Undefined, history) == (RequestFailed(TargetInvalid), None)
    ensures target != "" ==> ChatHistory(decoded, Str(target), Undefined, history).1 == Some(HistoryQuery(target, 10))
    ensures target != "" && history.Fetched? && !Truthy(history.value) ==>
      ChatHistory(decoded, Str(target), Undefined, history).0 == RequestFailed(NoHistory)
    ensures target != "" && history.Fetched? && history.value.Obj? ==>
      ChatHistory(decoded, Str(target), Undefined, history).0 == History(history.value)
  {
  }

  /** A JSON number limit is passed through when positive and refused otherwise. */
  lemma HistoryLimit(decoded: Option<Claims>, target: string, n: int, history: Fetch<JsValue>)
    requires decoded.Some? && target != ""
    ensures n > 0 ==> ChatHistory(decoded, Str(target), Num(n), history).1 == Some(HistoryQuery(target, n))
    ensures n <= 0 ==> ChatHistory(decoded, Str(target), Num(n), history) == (RequestFailed(LimitInvalid), None)
  {
    var o := ChatOptions("chatHistory", Str(target), Num(n), Undefined);
    IntArgumentOfNumber(n, 10);
    assert Limit(o) == if n > 0 then Some(n) else None;
    assert Truthy(o.targetNumber) && TypeOf(o.targetNumber) == "string";
    assert QueryFor(o) == if n > 0 then Some(HistoryQuery(target, n)) else None;
  }
}
