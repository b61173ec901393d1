/** The encoders of order requests: they print pieces into a reused buffer, some of them only if there
    is something to say. */
module Encoder {
  import opened Wrappers
  import opened Ascii
  import opened Accounts
  import opened EnumMap
  import opened Fields

  datatype CreateOrder = CreateOrder(
    symbol: string,
    side: EnumMap.Side,
    orderType: OrderType,
    timeInForce: EnumMap.TimeInForce,
    participateDoNotInitiate: bool,
    marginMode: MarginMode,
    quantity: string,
    price: Option<string>,
    stopPrice: Option<string>)

  datatype Order = Order(symbol: string, marginMode: MarginMode, clientOrderId: string, externalOrderId: string)

  /** What is to be encoded; decimals and enumerators come as their texts. */
  datatype Request =
    | PlaceOrderJson(create: CreateOrder, requestId: string, prevention: Option<string>, recvWindow: int, now: int)
    | NewOrderUrl(create: CreateOrder, requestId: string, prevention: Option<string>, recvWindow: int, now: int, sideEffect: Option<string>)
    | AmendOrderJson(order: Order, requestId: string, previousRequestId: string, quantity: string, recvWindow: int, now: int)
    | CancelOrderJson(order: Order, requestId: string, previousRequestId: string, restrictions: Option<string>, recvWindow: int, now: int)
    | CancelOrderUrl(order: Order, requestId: string, restrictions: Option<string>, recvWindow: int, now: int)
    | CancelAllUrl(symbol: string, marginMode: MarginMode, recvWindow: int, now: int)
    | MyTradesUrl(symbol: string, lookback: int, limit: nat, now: int)

  // --- order types

  function MapOrderType(create: CreateOrder): ExchangeType {
    match create.orderType
    case MARKET => if create.stopPrice.Some? then ExchangeType.STOP_LOSS else ExchangeType.MARKET
    case LIMIT =>
      if create.participateDoNotInitiate then ExchangeType.LIMIT_MAKER
      else if create.stopPrice.Some? then ExchangeType.STOP_LOSS_LIMIT
      else ExchangeType.LIMIT
    case UNDEFINED => MapType(create.orderType)
  }

  function MapTimeInForce(create: CreateOrder): ExchangeTimeInForce {
    match create.orderType
    case MARKET => ExchangeTimeInForce.UNDEFINED_INTERNAL
    case LIMIT =>
      if create.participateDoNotInitiate then ExchangeTimeInForce.UNDEFINED_INTERNAL else MapTime(create.timeInForce)
    case UNDEFINED => MapTime(create.timeInForce)
  }

  // --- what a request means

  function Whole(i: int): string {
    if i < 0 then "-" + Decimal(-i) else Decimal(i)
  }

  /** Milliseconds from nanoseconds, truncated towards zero. */
  function Milliseconds(ns: int): int {
    if ns < 0 then -(-ns / 1_000_000) else ns / 1_000_000
  }

  function NonEmpty(s: string): Option<string> {
    if s == "" then None else Some(s)
  }

  /** The text of a time in force, if it is one. */
  function Defined(timeInForce: ExchangeTimeInForce): Option<string> {
    if timeInForce != ExchangeTimeInForce.UNDEFINED_INTERNAL then Some(TimeText(timeInForce)) else None
  }

  function Isolated(marginMode: MarginMode): Option<string> {
    if marginMode == ISOLATED then Some("TRUE") else None
  }

  type Content = seq<(Key, Option<string>)>

  /** The parameters of a request in the order in which they are sent; those without a value are not. */
  function ContentOf(r: Request): Content {
    match r
    case PlaceOrderJson(create, requestId, prevention, recvWindow, now) => [
      (NewClientOrderId, Some(requestId)),
      (Price, create.price),
      (Quantity, Some(create.quantity)),
      (RecvWindow, Some(Whole(recvWindow))),
      (SelfTradePreventionMode, prevention),
      (Key.Side, Some(SideText(MapSide(create.side)))),
      (StopPrice, create.stopPrice),
      (Symbol, Some(create.symbol)),
      (Key.TimeInForce, Defined(MapTimeInForce(create))),
      (Timestamp, Some(Whole(now))),
      (Type, Some(TypeText(MapOrderType(create))))]
    case NewOrderUrl(create, requestId, prevention, recvWindow, now, sideEffect) => [
      (IsIsolated, Isolated(create.marginMode)),
      (NewClientOrderId, Some(requestId)),
      (Price, create.price),
      (Quantity, Some(create.quantity)),
      (RecvWindow, Some(Whole(recvWindow))),
      (SelfTradePreventionMode, prevention),
      (Key.Side, Some(SideText(MapSide(create.side)))),
      (SideEffectType, sideEffect),
      (StopPrice, create.stopPrice),
      (Symbol, Some(create.symbol)),
      (Key.TimeInForce, Defined(MapTimeInForce(create))),
      (Timestamp, Some(Whole(now))),
      (Type, Some(TypeText(MapOrderType(create))))]
    case AmendOrderJson(order, requestId, previousRequestId, quantity, recvWindow, now) => [
      (NewClientOrderId, Some(requestId)),
      (OrderId, NonEmpty(order.externalOrderId)),
      (OrigClientOrderId, Some(previousRequestId)),
      (NewQty, Some(quantity)),
      (RecvWindow, Some(Whole(recvWindow))),
      (Symbol, Some(order.symbol)),
      (Timestamp, Some(Whole(now)))]
    case CancelOrderJson(order, requestId, previousRequestId, restrictions, recvWindow, now) => [
      (CancelRestrictions, restrictions),
      (NewClientOrderId, Some(requestId)),
      (OrderId, NonEmpty(order.externalOrderId)),
      (OrigClientOrderId, Some(previousRequestId)),
      (RecvWindow, Some(Whole(recvWindow))),
      (Symbol, Some(order.symbol)),
      (Timestamp, Some(Whole(now)))]
    case CancelOrderUrl(order, requestId, restrictions, recvWindow, now) => [
      (IsIsolated, Isolated(order.marginMode)),
      (NewClientOrderId, Some(requestId)),
      (CancelRestrictions, restrictions),
      (OrigClientOrderId, if order.externalOrderId == "" then Some(order.clientOrderId) else None),
      (OrderId, NonEmpty(order.externalOrderId)),
      (RecvWindow, Some(Whole(recvWindow))),
      (Symbol, Some(order.symbol)),
      (Timestamp, Some(Whole(now)))]
    case CancelAllUrl(symbol, marginMode, recvWindow, now) => [
      (IsIsolated, if marginMode == CROSS then Some("FALSE") else Isolated(marginMode)),
      (Symbol, Some(symbol)),
      (RecvWindow, Some(Whole(recvWindow))),
      (Timestamp, Some(Whole(now)))]
    case MyTradesUrl(symbol, lookback, limit, now) => [
      (Limit, Some(Whole(limit))),
      (StartTime, Some(Whole(Milliseconds(now * 1_000_000 - lookback)))),
      (Symbol, Some(symbol))]
  }

  function Optional(key: Key, value: Option<string>): seq<Field> {
    if value.Some? then [Field(key, value.value)] else []
  }

  function Listed(content: Content): seq<Field> {
    if content == [] then []
    else
      var (key, value) := content[|content| - 1];
      Listed(content[..|content| - 1]) + Optional(key, value)
  }

  lemma ListedAppend(content: Content, key: Key, value: Option<string>)
    ensures Listed(content + [(key, value)]) == Listed(content) + Optional(key, value)
  {
    assert (content + [(key, value)])[..|content|] == content;
  }

  predicate IsJson(r: Request) {
    r.PlaceOrderJson? || r.AmendOrderJson? || r.CancelOrderJson?
  }

  /** The text of a request. */
  ghost predicate Prints(text: string, r: Request) {
    var fields := Listed(ContentOf(r));
    fields != [] && text == if IsJson(r) then Json(fields) else Query(fields)
  }

  // --- the encoders

  /** The buffer that all encoders print into. What has been printed so far is known as `content`. */
  class Buffer {
    var text: string
    ghost var content: Content

    ghost predicate IsQuery()
      reads this
    {
      Listed(content) != [] && text == Query(Listed(content))
    }

    ghost predicate IsObject()
      reads this
    {
      text == "{" + Terminated(Listed(content))
    }

    constructor ()
      ensures text == "" && content == []
    {
      text, content := "", [];
    }

    method Clear()
      modifies this
      ensures text == "" && content == []
    {
      text, content := "", [];
    }

    /** The first parameter of a query, behind the kind of margin if there is something to say about it. */
    method Start(isolated: Option<string>, key: Key, value: string)
      requires text == "" && content == []
      modifies this
      ensures IsQuery() && content == [(IsIsolated, isolated), (key, Some(value))]
    {
      if isolated.Some? {
        text := "isIsolated=" + isolated.value + "&";
      }
      text := text + (Name(key) + "=" + value);
      content := [(IsIsolated, isolated), (key, Some(value))];
      StartOfQuery(isolated, key, value);
    }

    method First(key: Key, value: string)
      requires text == "" && content == []
      modifies this
      ensures IsQuery() && content == [(key, Some(value))]
    {
      text := Name(key) + "=" + value;
      content := [(key, Some(value))];
      ListedAppend([], key, Some(value));
      assert [] + content == content;
    }

    /** One more parameter, behind others. */
    method Parameter(key: Key, value: Option<string>)
      requires IsQuery()
      modifies this
      ensures IsQuery() && content == old(content) + [(key, value)]
    {
      hide Name, Query, Listed;
      ListedAppend(content, key, value);
      if value.Some? {
        QueryAppend(Listed(content), Field(key, value.value));
        ghost var expected := text + "&" + Pair(Field(key, value.value));
        text := text + ("&" + Name(key) + "=" + value.value);
        assert text == expected;
      } else {
        assert Listed(content) + [] == Listed(content);
      }
      content := content + [(key, value)];
    }

    method Open()
      requires text == "" && content == []
      modifies this
      ensures IsObject() && content == []
    {
      text := "{";
    }

    /** One more member, with a comma. */
    method Member(key: Key, value: Option<string>)
      requires IsObject()
      modifies this
      ensures IsObject() && content == old(content) + [(key, value)]
    {
      hide Name, Terminated, Listed;
      ListedAppend(content, key, value);
      if value.Some? {
        TerminatedAppend(Listed(content), Field(key, value.value));
        ghost var expected := "{" + (Terminated(Listed(content)) + MemberText(Field(key, value.value)) + ",");
        if Numeric(key) {
          text := text + ("\"" + Name(key) + "\":" + value.value + ",");
        } else {
          text := text + ("\"" + Name(key) + "\":\"" + value.value + "\",");
        }
        assert text == expected;
      } else {
        assert Listed(content) + [] == Listed(content);
      }
      content := content + [(key, value)];
    }

    /** The last member, with the closing brace. */
    method Close(key: Key, value: string)
      requires IsObject()
      modifies this
      ensures content == old(content) + [(key, Some(value))]
      ensures Listed(content) != [] && text == Json(Listed(content))
    {
      hide Name, Terminated, Listed;
      ListedAppend(content, key, Some(value));
      ghost var fields := Listed(content) + [Field(key, value)];
      assert fields[..|fields| - 1] == Listed(content);
      ghost var expected := "{" + Terminated(Listed(content)) + MemberText(Field(key, value)) + "}";
      if Numeric(key) {
        text := text + ("\"" + Name(key) + "\":" + value + "}");
      } else {
        text := text + ("\"" + Name(key) + "\":\"" + value + "\"}");
      }
      assert text == expected;
      content := content + [(key, Some(value))];
    }
  }

  lemma StartOfQuery(isolated: Option<string>, key: Key, value: string)
    ensures var content := [(IsIsolated, isolated), (key, Some(value))];
            && Listed(content) != []
            && Query(Listed(content)) == (if isolated.Some? then "isIsolated=" + isolated.value + "&" else "") + (Name(key) + "=" + value)
  {
    hide Query;
    ListedAppend([], IsIsolated, isolated);
    ListedAppend([(IsIsolated, isolated)], key, Some(value));
    assert [] + [(IsIsolated, isolated)] == [(IsIsolated, isolated)];
    assert [(IsIsolated, isolated)] + [(key, Some(value))] == [(IsIsolated, isolated), (key, Some(value))];
    QueryAppend(Optional(IsIsolated, isolated), Field(key, value));
    if isolated.Some? {
      QueryAppend([], Field(IsIsolated, isolated.value));
      assert [] + [Field(IsIsolated, isolated.value)] == Optional(IsIsolated, isolated);
    }
  }

  method EncodeNewOrderUrl(buffer: Buffer, create: CreateOrder, requestId: string, prevention: Option<string>,
                           recvWindow: int, now: int, sideEffect: Option<string>)
    modifies buffer
    ensures Prints(buffer.text, Request.NewOrderUrl(create, requestId, prevention, recvWindow, now, sideEffect))
  {
    hide Listed, Query, Json, Name, Whole, MapSide, SideText, TypeText, MapOrderType, MapTimeInForce, Defined, Isolated;
    var side, orderType, timeInForce := MapSide(create.side), MapOrderType(create), MapTimeInForce(create);
    buffer.Clear();
    buffer.Start(Isolated(create.marginMode), NewClientOrderId, requestId);
    buffer.Parameter(Price, create.price);
    buffer.Parameter(Quantity, Some(create.quantity));
    buffer.Parameter(RecvWindow, Some(Whole(recvWindow)));
    buffer.Parameter(SelfTradePreventionMode, prevention);
    buffer.Parameter(Key.Side, Some(SideText(side)));
    buffer.Parameter(SideEffectType, sideEffect);
    buffer.Parameter(StopPrice, create.stopPrice);
    buffer.Parameter(Symbol, Some(create.symbol));
    buffer.Parameter(Key.TimeInForce, Defined(timeInForce));
    buffer.Parameter(Timestamp, Some(Whole(now)));
    buffer.Parameter(Type, Some(TypeText(orderType)));
    assert buffer.content == ContentOf(Request.NewOrderUrl(create, requestId, prevention, recvWindow, now, sideEffect));
  }

  method EncodePlaceOrderJson(buffer: Buffer, create: CreateOrder, requestId: string, prevention: Option<string>, recvWindow: int, now: int)
    modifies buffer
    ensures Prints(buffer.text, Request.PlaceOrderJson(create, requestId, prevention, recvWindow, now))
  {
    hide Listed, Terminated, Json, Name, Whole, MapSide, SideText, TypeText, MapOrderType, MapTimeInForce, Defined;
    var side, orderType, timeInForce := MapSide(create.side), MapOrderType(create), MapTimeInForce(create);
    buffer.Clear();
    buffer.Open();
    buffer.Member(NewClientOrderId, Some(requestId));
    buffer.Member(Price, create.price);
    buffer.Member(Quantity, Some(create.quantity));
    buffer.Member(RecvWindow, Some(Whole(recvWindow)));
    buffer.Member(SelfTradePreventionMode, prevention);
    buffer.Member(Key.Side, Some(SideText(side)));
    buffer.Member(StopPrice, create.stopPrice);
    buffer.Member(Symbol, Some(create.symbol));
    buffer.Member(Key.TimeInForce, Defined(timeInForce));
    buffer.Member(Timestamp, Some(Whole(now)));
    buffer.Close(Type, TypeText(orderType));
    assert buffer.content == ContentOf(Request.PlaceOrderJson(create, requestId, prevention, recvWindow, now));
  }

  /** An amendment that keeps the priority cannot change the price; it is rejected before anything is
      printed. */
  method EncodeAmendOrderJson(buffer: Buffer, price: Option<string>, order: Order, requestId: string, previousRequestId: string,
                              quantity: string, recvWindow: int, now: int)
    returns (accepted: bool)
    modifies buffer
    ensures accepted == price.None?
    ensures !accepted ==> buffer.text == old(buffer.text)
    ensures accepted ==>
              Prints(buffer.text, Request.AmendOrderJson(order, requestId, previousRequestId, quantity, recvWindow, now))
  {
    hide Listed, Terminated, Json, Name, Whole;
    if price.Some? {
      return false;
    }
    buffer.Clear();
    buffer.Open();
    buffer.Member(NewClientOrderId, Some(requestId));
    buffer.Member(OrderId, NonEmpty(order.externalOrderId));
    buffer.Member(OrigClientOrderId, Some(previousRequestId));
    buffer.Member(NewQty, Some(quantity));
    buffer.Member(RecvWindow, Some(Whole(recvWindow)));
    buffer.Member(Symbol, Some(order.symbol));
    buffer.Close(Timestamp, Whole(now));
    assert buffer.content == ContentOf(Request.AmendOrderJson(order, requestId, previousRequestId, quantity, recvWindow, now));
    return true;
  }

  method EncodeCancelOrderJson(buffer: Buffer, order: Order, requestId: string, previousRequestId: string,
                               restrictions: Option<string>, recvWindow: int, now: int)
    modifies buffer
    ensures Prints(buffer.text, Request.CancelOrderJson(order, requestId, previousRequestId, restrictions, recvWindow, now))
  {
    hide Listed, Terminated, Json, Name, Whole;
    buffer.Clear();
    buffer.Open();
    buffer.Member(CancelRestrictions, restrictions);
    buffer.Member(NewClientOrderId, Some(requestId));
    buffer.Member(OrderId, NonEmpty(order.externalOrderId));
    buffer.Member(OrigClientOrderId, Some(previousRequestId));
    buffer.Member(RecvWindow, Some(Whole(recvWindow)));
    buffer.Member(Symbol, Some(order.symbol));
    buffer.Close(Timestamp, Whole(now));
    assert buffer.content == ContentOf(Request.CancelOrderJson(order, requestId, previousRequestId, restrictions, recvWindow, now));
  }

  method EncodeCancelOrderUrl(buffer: Buffer, order: Order, requestId: string, restrictions: Option<string>, recvWindow: int, now: int)
    modifies buffer
    ensures Prints(buffer.text, Request.CancelOrderUrl(order, requestId, restrictions, recvWindow, now))
  {
    hide Listed, Query, Json, Name, Whole;
    buffer.Clear();
    buffer.Start(Isolated(order.marginMode), NewClientOrderId, requestId);
    buffer.Parameter(CancelRestrictions, restrictions);
    if order.externalOrderId == "" {
      buffer.Parameter(OrigClientOrderId, Some(order.clientOrderId));
      buffer.Parameter(OrderId, None);
    } else {
      buffer.Parameter(OrigClientOrderId, None);
      buffer.Parameter(OrderId, Some(order.externalOrderId));
    }
    buffer.Parameter(RecvWindow, Some(Whole(recvWindow)));
    buffer.Parameter(Symbol, Some(order.symbol));
    buffer.Parameter(Timestamp, Some(Whole(now)));
    assert buffer.content == ContentOf(Request.CancelOrderUrl(order, requestId, restrictions, recvWindow, now));
  }

  method EncodeCancelAllUrl(buffer: Buffer, symbol: string, marginMode: MarginMode, recvWindow: int, now: int)
    modifies buffer
    ensures Prints(buffer.text, Request.CancelAllUrl(symbol, marginMode, recvWindow, now))
  {
    hide Listed, Query, Json, Name, Whole;
    var isolated: Option<string> := None;
    match marginMode {
      case UNDEFINED =>
      case ISOLATED => isolated := Some("TRUE");
      case CROSS => isolated := Some("FALSE");
      case PORTFOLIO =>
    }
    buffer.Clear();
    buffer.Start(isolated, Symbol, symbol);
    buffer.Parameter(RecvWindow, Some(Whole(recvWindow)));
    buffer.Parameter(Timestamp, Some(Whole(now)));
    assert buffer.content == ContentOf(Request.CancelAllUrl(symbol, marginMode, recvWindow, now));
  }

  method EncodeMyTradesUrl(buffer: Buffer, symbol: string, lookback: int, limit: nat, now: int)
    modifies buffer
    ensures Prints(buffer.text, Request.MyTradesUrl(symbol, lookback, limit, now))
  {
    hide Listed, Query, Json, Name, Whole;
    var startTime := Milliseconds(now * 1_000_000 - lookback);
    buffer.Clear();
    buffer.First(Limit, Whole(limit));
    buffer.Parameter(StartTime, Some(Whole(startTime)));
    buffer.Parameter(Symbol, Some(symbol));
    assert buffer.content == ContentOf(Request.MyTradesUrl(symbol, lookback, limit, now));
  }
}
