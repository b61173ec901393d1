/** Routing of web-socket messages: a reply goes to the handler of the request type found in its
    id, an event to the handler of its event type. */
module WSAPIParser {
  import opened Wrappers
  import opened WSAPIRequest

  /** A parsed JSON value, as far as the dispatcher looks into it. */
  datatype Value =
    | Text(text: string)
    | Object(members: seq<Member>)
    | Scalar
  datatype Member = Member(key: string, value: Value)

  datatype EventType =
    | UNDEFINED_INTERNAL
    | UNKNOWN_INTERNAL
    | SERVER_SHUTDOWN
    | AGG_TRADE
    | TRADE
    | MINI_TICKER_24HR
    | BOOK_TICKER
    | DEPTH_UPDATE
    | OUTBOUND_ACCOUNT_POSITION
    | BALANCE_UPDATE
    | EXECUTION_REPORT
    | LIST_STATUS
    | OPEN_ORDER_LOSS
    | ORDER_TRADE_UPDATE
    | EVENT_STREAM_TERMINATED
    | ACCOUNT_UPDATE
    | POSITION_HISTORY_UPDATE
    | LIABILITY_CHANGE

  function EventTypeOf(name: string): EventType {
    match name
    case "" => EventType.UNDEFINED_INTERNAL
    case "serverShutdown" => SERVER_SHUTDOWN
    case "aggTrade" => AGG_TRADE
    case "trade" => TRADE
    case "24hrMiniTicker" => MINI_TICKER_24HR
    case "bookTicker" => BOOK_TICKER
    case "depthUpdate" => DEPTH_UPDATE
    case "outboundAccountPosition" => OUTBOUND_ACCOUNT_POSITION
    case "balanceUpdate" => BALANCE_UPDATE
    case "executionReport" => EXECUTION_REPORT
    case "listStatus" => LIST_STATUS
    case "openOrderLoss" => OPEN_ORDER_LOSS
    case "ORDER_TRADE_UPDATE" => ORDER_TRADE_UPDATE
    case "eventStreamTerminated" => EVENT_STREAM_TERMINATED
    case "ACCOUNT_UPDATE" => ACCOUNT_UPDATE
    case "POSITION_HISTORY_UPDATE" => POSITION_HISTORY_UPDATE
    case "liabilityChange" => LIABILITY_CHANGE
    case _ => EventType.UNKNOWN_INTERNAL
  }

  /** One invocation of the message handler. */
  datatype Call =
    | OnSessionLogon
    | OnUserDataStreamSubscribe
    | OnAccount
    | OnOpenOrders
    | OnTrades
    | OnOrderPlace(request: Request)
    | OnOrderAmendKeepPriority(request: Request)
    | OnCancelOrder(request: Request)
    | OnCancelOpenOrders(request: Request)
    | OnOutboundAccountPosition
    | OnBalanceUpdate
    | OnExecutionReport
    | OnEventStreamTerminated

  /** How a dispatch ends: one handler call, a message that is skipped, the end of the process, or
      an exception. */
  datatype Outcome = Called(call: Call) | Skipped | Fatal | Thrown

  function DispatchResponse(request: Request, allowUnknown: bool): Outcome {
    match request.requestType
    case UNDEFINED_INTERNAL => Fatal
    case UNKNOWN_INTERNAL => if allowUnknown then Skipped else Fatal
    case SESSION_LOGON => Called(OnSessionLogon)
    case USER_DATA_STREAM_SUBSCRIBE => Called(OnUserDataStreamSubscribe)
    case ACCOUNT_STATUS => Called(OnAccount)
    case OPEN_ORDERS_STATUS => Called(OnOpenOrders)
    case MY_TRADES => Called(OnTrades)
    case ORDER_PLACE => Called(OnOrderPlace(request))
    case ORDER_AMEND_KEEP_PRIORITY => Called(OnOrderAmendKeepPriority(request))
    case ORDER_CANCEL => Called(OnCancelOrder(request))
    case OPEN_ORDERS_CANCEL_ALL => Called(OnCancelOpenOrders(request))
    case UNNAMED(_) => Fatal
  }

  function DispatchEvent(eventType: EventType, allowUnknown: bool): Outcome {
    match eventType
    case UNKNOWN_INTERNAL => if allowUnknown then Skipped else Fatal
    case SERVER_SHUTDOWN => if allowUnknown then Skipped else Fatal
    case OUTBOUND_ACCOUNT_POSITION => Called(OnOutboundAccountPosition)
    case BALANCE_UPDATE => Called(OnBalanceUpdate)
    case EXECUTION_REPORT => Called(OnExecutionReport)
    case EVENT_STREAM_TERMINATED => Called(OnEventStreamTerminated)
    case _ => Fatal
  }

  /** What one member of the message makes the dispatcher do, or None if it goes on. */
  function React(member: Member, allowUnknown: bool): Option<Outcome> {
    if member.key == "id" then
      if !member.value.Text? then Some(Thrown) else
      match DecodeText(member.value.text)
      case Success(request) => Some(DispatchResponse(request, allowUnknown))
      case Failure(_) => Some(Thrown)
    else if member.key == "event" then
      if !member.value.Object? then Some(Thrown) else ReactToEvent(member.value.members, allowUnknown)
    else None
  }

  function ReactToEvent(members: seq<Member>, allowUnknown: bool): Option<Outcome> {
    if members == [] then None
    else if members[0].key != "e" then ReactToEvent(members[1..], allowUnknown)
    else if members[0].value.Text? then Some(DispatchEvent(EventTypeOf(members[0].value.text), allowUnknown))
    else Some(Thrown)
  }

  /** The first member that calls for a reaction decides. */
  function Route(members: seq<Member>, allowUnknown: bool): Outcome {
    if members == [] then if allowUnknown then Skipped else Fatal
    else match React(members[0], allowUnknown)
      case Some(outcome) => outcome
      case None => Route(members[1..], allowUnknown)
  }

  method Dispatch(members: seq<Member>, allowUnknown: bool) returns (outcome: Outcome)
    ensures outcome == Route(members, allowUnknown)
  {
    for i := 0 to |members|
      invariant Route(members, allowUnknown) == Route(members[i..], allowUnknown)
    {
      assert members[i..][1..] == members[i + 1..];
      var Member(key, value) := members[i];
      if key == "id" {
        if !value.Text? {
          return Thrown;
        }
        var decoded := Decode(value.text);
        match decoded {
          case Success(request) => return DispatchResponse(request, allowUnknown);
          case Failure(_) => return Thrown;
        }
      } else if key == "event" {
        if !value.Object? {
          return Thrown;
        }
        for j := 0 to |value.members|
          invariant ReactToEvent(value.members, allowUnknown) == ReactToEvent(value.members[j..], allowUnknown)
        {
          assert value.members[j..][1..] == value.members[j + 1..];
          var Member(k, v) := value.members[j];
          if k == "e" {
            return if v.Text? then DispatchEvent(EventTypeOf(v.text), allowUnknown) else Thrown;
          }
        }
      }
    }
    return if allowUnknown then Skipped else Fatal;
  }

  // --- properties

  /** A reply that carries `id`, wherever in the message it stands. */
  ghost predicate Echoes(members: seq<Member>, id: string) {
    && Member("id", Text(id)) in members
    && (forall m :: m in members && m.key == "id" ==> m.value == Text(id))
    && (forall m :: m in members ==> m.key != "event")
  }

  /** The position of the id among the members of a reply does not matter. */
  lemma {:induction false} RouteReply(members: seq<Member>, request: Request, allowUnknown: bool)
    requires Echoes(members, EncodeText(request))
    ensures Route(members, allowUnknown) == DispatchResponse(request, allowUnknown)
  {
    if members[0].key == "id" {
      RoundTrip(request);
    } else {
      assert members[0] != Member("id", Text(EncodeText(request)));
      RouteReply(members[1..], request, allowUnknown);
    }
  }

  /** The replies without a handler: a type that is not known is skipped if that is allowed and ends the
      process if not; one that is not defined, or has no name at all, ends it. Every other type has a
      handler, and those of orders are told user, order and version. */
  lemma ReplyDelivered(members: seq<Member>, request: Request, allowUnknown: bool)
    requires Echoes(members, EncodeText(request))
    ensures var outcome, requestType := Route(members, allowUnknown), request.requestType;
            && (requestType == WSAPIType.UNKNOWN_INTERNAL ==> outcome == if allowUnknown then Skipped else Fatal)
            && (requestType == WSAPIType.UNDEFINED_INTERNAL || requestType.UNNAMED? ==> outcome == Fatal)
            && (outcome.Called? <==>
                  requestType != WSAPIType.UNKNOWN_INTERNAL && requestType != WSAPIType.UNDEFINED_INTERNAL && !requestType.UNNAMED?)
            && (requestType == ORDER_PLACE ==> outcome == Called(OnOrderPlace(request)))
            && (requestType == ORDER_AMEND_KEEP_PRIORITY ==> outcome == Called(OnOrderAmendKeepPriority(request)))
            && (requestType == ORDER_CANCEL ==> outcome == Called(OnCancelOrder(request)))
            && (requestType == OPEN_ORDERS_CANCEL_ALL ==> outcome == Called(OnCancelOpenOrders(request)))
  {
    RouteReply(members, request, allowUnknown);
    hide Route, EncodeText, Echoes;
  }

  /** A member that does not make the dispatcher do anything. */
  ghost predicate Silent(m: Member) {
    && m.key != "id"
    && (m.key == "event" ==> m.value.Object? && forall e :: e in m.value.members ==> e.key != "e")
  }

  /** The first "e" among the members of an event, if there is one. */
  ghost predicate FirstE(event: seq<Member>, j: nat) {
    j < |event| && event[j].key == "e" && forall k :: 0 <= k < j ==> event[k].key != "e"
  }

  lemma {:induction false} SilentPrefix(members: seq<Member>, i: nat, allowUnknown: bool)
    requires i <= |members| && forall k :: 0 <= k < i ==> Silent(members[k])
    ensures Route(members, allowUnknown) == Route(members[i..], allowUnknown)
  {
    if i == 0 {
      assert members[0..] == members;
    } else {
      if members[0].key == "event" {
        NoE(members[0].value.members, |members[0].value.members|, allowUnknown);
      }
      SilentPrefix(members[1..], i - 1, allowUnknown);
      assert members[1..][i - 1..] == members[i..];
    }
  }

  lemma {:induction false} NoE(event: seq<Member>, j: nat, allowUnknown: bool)
    requires j <= |event| && forall k :: 0 <= k < j ==> event[k].key != "e"
    ensures ReactToEvent(event, allowUnknown) == ReactToEvent(event[j..], allowUnknown)
  {
    if j == 0 {
      assert event[0..] == event;
    } else {
      NoE(event[1..], j - 1, allowUnknown);
      assert event[1..][j - 1..] == event[j..];
    }
  }

  /** The events that have a name but no handler; they end the process. */
  const UNEXPECTED: seq<string> := [
    "", "aggTrade", "trade", "24hrMiniTicker", "bookTicker", "depthUpdate", "listStatus", "openOrderLoss",
    "ORDER_TRADE_UPDATE", "ACCOUNT_UPDATE", "POSITION_HISTORY_UPDATE", "liabilityChange"]

  const HANDLED: seq<string> := ["executionReport", "balanceUpdate", "outboundAccountPosition", "eventStreamTerminated"]

  lemma HandledEvents(allowUnknown: bool)
    ensures DispatchEvent(EventTypeOf("executionReport"), allowUnknown) == Called(OnExecutionReport)
    ensures DispatchEvent(EventTypeOf("balanceUpdate"), allowUnknown) == Called(OnBalanceUpdate)
    ensures DispatchEvent(EventTypeOf("outboundAccountPosition"), allowUnknown) == Called(OnOutboundAccountPosition)
    ensures DispatchEvent(EventTypeOf("eventStreamTerminated"), allowUnknown) == Called(OnEventStreamTerminated)
  {
  }

  lemma UnexpectedEvents(name: string, allowUnknown: bool)
    requires name in UNEXPECTED
    ensures DispatchEvent(EventTypeOf(name), allowUnknown) == Fatal
  {
  }

  lemma OtherEvents(name: string, allowUnknown: bool)
    requires name !in UNEXPECTED && name !in HANDLED
    ensures DispatchEvent(EventTypeOf(name), allowUnknown) == if allowUnknown then Skipped else Fatal
  {
  }

  /** The announcement of a shutdown is not among either; no name is among both. */
  lemma Apart()
    ensures "serverShutdown" !in UNEXPECTED && "serverShutdown" !in HANDLED
    ensures forall name :: name in HANDLED ==> name !in UNEXPECTED
  {
  }

  /** What the event in the i-th member makes the dispatcher do, if nothing before it does anything: the
      name in its first "e" decides. A report of an order, of a balance, of the positions and of the end of
      the event stream goes to its own handler, wherever the event stands among the other members. The
      other names that the exchange defines end the process, except for the announcement of a shutdown: like
      a name that is not known it is skipped if that is allowed. A name that is no text is an exception. */
  lemma EventDelivered(members: seq<Member>, i: nat, j: nat, allowUnknown: bool)
    requires i < |members| && forall k :: 0 <= k < i ==> Silent(members[k])
    requires members[i].key == "event" && members[i].value.Object? && FirstE(members[i].value.members, j)
    ensures var outcome, e := Route(members, allowUnknown), members[i].value.members[j].value;
            && (e == Text("executionReport") ==> outcome == Called(OnExecutionReport))
            && (e == Text("balanceUpdate") ==> outcome == Called(OnBalanceUpdate))
            && (e == Text("outboundAccountPosition") ==> outcome == Called(OnOutboundAccountPosition))
            && (e == Text("eventStreamTerminated") ==> outcome == Called(OnEventStreamTerminated))
            && (e.Text? && e.text in UNEXPECTED ==> outcome == Fatal)
            && (e == Text("serverShutdown") ==> outcome == if allowUnknown then Skipped else Fatal)
            && (e.Text? && e.text !in UNEXPECTED && e.text !in HANDLED ==> outcome == if allowUnknown then Skipped else Fatal)
            && (!e.Text? ==> outcome == Thrown)
  {
    var event := members[i].value.members;
    SilentPrefix(members, i, allowUnknown);
    NoE(event, j, allowUnknown);
    assert members[i..][0] == members[i] && event[j..][0] == event[j];
    if event[j].value.Text? {
      var name := event[j].value.text;
      assert Route(members, allowUnknown) == DispatchEvent(EventTypeOf(name), allowUnknown);
      hide *;
      HandledEvents(allowUnknown);
      if name in UNEXPECTED {
        UnexpectedEvents(name, allowUnknown);
      } else if name !in HANDLED {
        OtherEvents(name, allowUnknown);
      }
      Apart();
    }
  }

  /** The other ways to end: an id or an event of the wrong kind, or an id that is not one of the gateway's,
      is an exception; and if nothing calls for anything the message is skipped if that is allowed. */
  lemma OtherEnds(members: seq<Member>, i: nat, allowUnknown: bool)
    requires i <= |members| && forall k :: 0 <= k < i ==> Silent(members[k])
    ensures i == |members| ==> Route(members, allowUnknown) == if allowUnknown then Skipped else Fatal
    ensures i < |members| && members[i].key == "id" && (members[i].value.Text? ==> DecodeText(members[i].value.text).Failure?) ==>
              Route(members, allowUnknown) == Thrown
    ensures i < |members| && members[i].key == "event" && !members[i].value.Object? ==> Route(members, allowUnknown) == Thrown
  {
    SilentPrefix(members, i, allowUnknown);
    if i < |members| {
      assert members[i..][0] == members[i];
    } else {
      assert members[i..] == [];
    }
    hide DecodeText;
  }
}
