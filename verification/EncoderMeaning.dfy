/** What a receiver learns from an encoded request, name by name, in terms of the request alone. */
module EncoderMeaning {
  import opened Wrappers
  import opened Ascii
  import opened Accounts
  import opened EnumMap
  import opened Fields
  import opened Encoder
  import opened EncoderLaws

  // --- words and numbers

  /** The exchange's word for the side of an order. */
  function SideWord(create: CreateOrder): string {
    if create.side == EnumMap.Side.BUY then "BUY" else if create.side == EnumMap.Side.SELL then "SELL" else ""
  }

  /** The exchange's word for the kind of order: what a stop price and being post-only make of it. */
  function TypeWord(create: CreateOrder): string {
    if create.orderType == OrderType.MARKET then
      if create.stopPrice.Some? then "STOP_LOSS" else "MARKET"
    else if create.orderType == OrderType.LIMIT then
      if create.participateDoNotInitiate then "LIMIT_MAKER"
      else if create.stopPrice.Some? then "STOP_LOSS_LIMIT"
      else "LIMIT"
    else ""
  }

  /** The exchange's word for the time in force; market and post-only orders have none. */
  function TimeWord(create: CreateOrder): Option<string> {
    if create.orderType == OrderType.MARKET || (create.orderType == OrderType.LIMIT && create.participateDoNotInitiate) then None
    else if create.timeInForce == EnumMap.TimeInForce.GTC then Some("GTC")
    else if create.timeInForce == EnumMap.TimeInForce.IOC then Some("IOC")
    else if create.timeInForce == EnumMap.TimeInForce.FOK then Some("FOK")
    else None
  }

  lemma SideIs(create: CreateOrder)
    ensures SideText(MapSide(create.side)) == SideWord(create)
  {
  }

  lemma TypeIs(create: CreateOrder)
    ensures TypeText(MapOrderType(create)) == TypeWord(create)
  {
  }

  lemma TimeIs(create: CreateOrder)
    ensures Defined(MapTimeInForce(create)) == TimeWord(create)
  {
  }

  /** A number is printed as its decimal digits, behind a sign if it is negative. */
  lemma WholeDenotes(i: int)
    ensures i >= 0 ==> Digits(Whole(i)) == i
    ensures i < 0 ==> Whole(i)[0] == '-' && Digits(Whole(i)[1..]) == -i
  {
    DecimalDenotes(if i < 0 then -i else i);
  }

  /** Milliseconds are truncated towards zero: what is lost is less than a millisecond, and the sign of
      the rest is that of the time. */
  lemma MillisecondsTruncate(ns: int)
    ensures var rest := ns - Milliseconds(ns) * 1_000_000;
            -1_000_000 < rest < 1_000_000 && (ns >= 0 ==> rest >= 0) && (ns <= 0 ==> rest <= 0)
  {
  }

  // --- which texts a request may contain

  predicate NoSeparator(s: string) {
    '&' !in s
  }

  predicate NoQuote(s: string) {
    '"' !in s && '\\' !in s
  }

  /** An id that can stand for a number: it does not look like a text, and nothing in it ends a number. */
  predicate Unquoted(id: string) {
    id != "" && id[0] != '"' && ',' !in id && '}' !in id
  }

  /** No text in a query contains the separator, none in an object a quote or an escape. */
  predicate Tidy(r: Request) {
    match r
    case NewOrderUrl(create, requestId, prevention, _, _, sideEffect) =>
      && NoSeparator(requestId) && NoSeparator(create.quantity) && NoSeparator(create.symbol)
      && (create.price.Some? ==> NoSeparator(create.price.value)) && (create.stopPrice.Some? ==> NoSeparator(create.stopPrice.value))
      && (prevention.Some? ==> NoSeparator(prevention.value)) && (sideEffect.Some? ==> NoSeparator(sideEffect.value))
    case PlaceOrderJson(create, requestId, prevention, _, _) =>
      && NoQuote(requestId) && NoQuote(create.quantity) && NoQuote(create.symbol)
      && (create.price.Some? ==> NoQuote(create.price.value)) && (create.stopPrice.Some? ==> NoQuote(create.stopPrice.value))
      && (prevention.Some? ==> NoQuote(prevention.value))
    case AmendOrderJson(order, requestId, previousRequestId, quantity, _, _) =>
      && NoQuote(requestId) && NoQuote(previousRequestId) && NoQuote(quantity) && NoQuote(order.symbol)
      && (order.externalOrderId == "" || Unquoted(order.externalOrderId))
    case CancelOrderJson(order, requestId, previousRequestId, restrictions, _, _) =>
      && NoQuote(requestId) && NoQuote(previousRequestId) && (restrictions.Some? ==> NoQuote(restrictions.value)) && NoQuote(order.symbol)
      && (order.externalOrderId == "" || Unquoted(order.externalOrderId))
    case CancelOrderUrl(order, requestId, restrictions, _, _) =>
      && NoSeparator(requestId) && (restrictions.Some? ==> NoSeparator(restrictions.value)) && NoSeparator(order.symbol)
      && NoSeparator(if order.externalOrderId == "" then order.clientOrderId else order.externalOrderId)
    case CancelAllUrl(symbol, _, _, _) => NoSeparator(symbol)
    case MyTradesUrl(symbol, _, _, _) => NoSeparator(symbol)
  }

  lemma TidyNewOrder(r: Request)
    requires r.NewOrderUrl? && Tidy(r)
    ensures Clean(r)
  {
    hide Whole, MapOrderType, MapTimeInForce, MapSide, SideText, TypeText, Defined, Isolated;
  }

  lemma TidyPlaceOrder(r: Request)
    requires r.PlaceOrderJson? && Tidy(r)
    ensures Clean(r)
  {
    hide Whole, MapOrderType, MapTimeInForce, MapSide, SideText, TypeText, Defined;
  }

  lemma TidyObject(r: Request)
    requires (r.AmendOrderJson? || r.CancelOrderJson?) && Tidy(r)
    ensures Clean(r)
  {
    hide Whole;
  }

  lemma TidyQuery(r: Request)
    requires (r.CancelOrderUrl? || r.CancelAllUrl? || r.MyTradesUrl?) && Tidy(r)
    ensures Clean(r)
  {
    hide Whole, Milliseconds;
  }

  /** Nothing more is asked of a request than that. */
  lemma TidyIsClean(r: Request)
    requires Tidy(r)
    ensures Clean(r)
  {
    hide Clean, Tidy;
    match r
    case NewOrderUrl(_, _, _, _, _, _) => TidyNewOrder(r);
    case PlaceOrderJson(_, _, _, _, _) => TidyPlaceOrder(r);
    case AmendOrderJson(_, _, _, _, _, _) => TidyObject(r);
    case CancelOrderJson(_, _, _, _, _, _) => TidyObject(r);
    case _ => TidyQuery(r);
  }

  // --- names

  lemma EarlyNames()
    ensures Name(CancelRestrictions) == "cancelRestrictions"
    ensures Name(IsIsolated) == "isIsolated"
    ensures Name(Limit) == "limit"
    ensures Name(NewClientOrderId) == "newClientOrderId"
    ensures Name(NewQty) == "newQty"
    ensures Name(OrderId) == "orderId"
    ensures Name(OrigClientOrderId) == "origClientOrderId"
    ensures Name(Price) == "price"
    ensures Name(Quantity) == "quantity"
    ensures Name(RecvWindow) == "recvWindow"
  {
  }

  lemma LateNames()
    ensures Name(SelfTradePreventionMode) == "selfTradePreventionMode"
    ensures Name(Key.Side) == "side"
    ensures Name(SideEffectType) == "sideEffectType"
    ensures Name(StartTime) == "startTime"
    ensures Name(StopPrice) == "stopPrice"
    ensures Name(Symbol) == "symbol"
    ensures Name(Key.TimeInForce) == "timeInForce"
    ensures Name(Timestamp) == "timestamp"
    ensures Name(Type) == "type"
  {
  }

  /** Nothing is found under a name that is not one of the request's. */
  lemma OtherName(text: string, r: Request, name: string)
    requires Prints(text, r) && Clean(r)
    requires forall i :: 0 <= i < |ContentOf(r)| ==> Name(ContentOf(r)[i].0) != name
    ensures if IsJson(r) then FindInObject(text, name) == None else FindInQuery(text, name) == None
  {
    hide ContentOf, Name, ReadQuery, Query, ReadObject, Json, IsJson, Clean, Listed;
    var fields := FieldsOf(r);
    CleanFields(r);
    forall p | 0 <= p < |fields|
      ensures Name(fields[p].key) != name
    {
      var i := ListedFrom(ContentOf(r), p);
    }
    if IsJson(r) {
      JsonRoundTrip(fields);
      FindNone(Members(fields), name);
    } else {
      QueryRoundTrip(fields);
      FindNone(Named(fields), name);
    }
  }

  /** The values of a request's keys in a query string, and nothing else. */
  ghost predicate QuerySays(text: string, content: Content) {
    && (forall i :: 0 <= i < |content| ==> FindInQuery(text, Name(content[i].0)) == content[i].1)
    && (forall name :: (forall i :: 0 <= i < |content| ==> Name(content[i].0) != name) ==> FindInQuery(text, name) == None)
  }

  function Worth(key: Key, value: Option<string>): Option<Value> {
    if value.Some? then Some(ValueOf(Field(key, value.value))) else None
  }

  ghost predicate ObjectSays(text: string, content: Content) {
    && (forall i :: 0 <= i < |content| ==> FindInObject(text, Name(content[i].0)) == Worth(content[i].0, content[i].1))
    && (forall name :: (forall i :: 0 <= i < |content| ==> Name(content[i].0) != name) ==> FindInObject(text, name) == None)
  }

  lemma Said(text: string, r: Request)
    requires Prints(text, r) && Clean(r)
    ensures if IsJson(r) then ObjectSays(text, ContentOf(r)) else QuerySays(text, ContentOf(r))
  {
    hide ContentOf, Name, FindInObject, FindInQuery, IsJson, Prints, Clean, ValueOf;
    forall i | 0 <= i < |ContentOf(r)|
      ensures if IsJson(r) then FindInObject(text, Name(ContentOf(r)[i].0)) == Worth(ContentOf(r)[i].0, ContentOf(r)[i].1)
              else FindInQuery(text, Name(ContentOf(r)[i].0)) == ContentOf(r)[i].1
    {
      if IsJson(r) {
        ObjectReceived(text, r, i);
      } else {
        QueryReceived(text, r, i);
      }
    }
    forall name | forall i :: 0 <= i < |ContentOf(r)| ==> Name(ContentOf(r)[i].0) != name
      ensures if IsJson(r) then FindInObject(text, name) == None else FindInQuery(text, name) == None
    {
      OtherName(text, r, name);
    }
  }

  // --- what is read

  /** Under these names a receiver of the query string finds these values, and under no other anything. */
  ghost predicate QueryReads(text: string, pairs: seq<(string, Option<string>)>) {
    && (forall i :: 0 <= i < |pairs| ==> FindInQuery(text, pairs[i].0) == pairs[i].1)
    && (forall name :: (forall i :: 0 <= i < |pairs| ==> pairs[i].0 != name) ==> FindInQuery(text, name) == None)
  }

  /** The same of an object, with texts and numbers told apart. */
  ghost predicate ObjectReads(text: string, pairs: seq<(string, Option<Value>)>) {
    && (forall i :: 0 <= i < |pairs| ==> FindInObject(text, pairs[i].0) == pairs[i].1)
    && (forall name :: (forall i :: 0 <= i < |pairs| ==> pairs[i].0 != name) ==> FindInObject(text, name) == None)
  }

  function AsText(value: Option<string>): Option<Value> {
    if value.Some? then Some(Text(value.value)) else None
  }

  lemma QueryNamed(text: string, content: Content, pairs: seq<(string, Option<string>)>)
    requires QuerySays(text, content) && |pairs| == |content|
    requires forall i :: 0 <= i < |pairs| ==> pairs[i] == (Name(content[i].0), content[i].1)
    ensures QueryReads(text, pairs)
  {
    hide Name, FindInQuery;
  }

  lemma ObjectNamed(text: string, content: Content, pairs: seq<(string, Option<Value>)>)
    requires ObjectSays(text, content) && |pairs| == |content|
    requires forall i :: 0 <= i < |pairs| ==> pairs[i] == (Name(content[i].0), Worth(content[i].0, content[i].1))
    ensures ObjectReads(text, pairs)
  {
    hide Name, FindInObject, Worth;
  }

  lemma Worths(key: Key, value: Option<string>)
    ensures key !in {OrderId, RecvWindow, Timestamp} ==> Worth(key, value) == AsText(value)
    ensures key in {OrderId, RecvWindow, Timestamp} ==> Worth(key, value) == if value.Some? then Some(Number(value.value)) else None
  {
  }

  /** A new order over REST: every parameter of the order under its own name. */
  lemma NewOrderUrlReads(text: string, create: CreateOrder, requestId: string, prevention: Option<string>, recvWindow: int,
                         now: int, sideEffect: Option<string>)
    requires Prints(text, Request.NewOrderUrl(create, requestId, prevention, recvWindow, now, sideEffect))
    requires Tidy(Request.NewOrderUrl(create, requestId, prevention, recvWindow, now, sideEffect))
    ensures QueryReads(text, [
              ("isIsolated", if create.marginMode == ISOLATED then Some("TRUE") else None),
              ("newClientOrderId", Some(requestId)),
              ("price", create.price),
              ("quantity", Some(create.quantity)),
              ("recvWindow", Some(Whole(recvWindow))),
              ("selfTradePreventionMode", prevention),
              ("side", Some(SideWord(create))),
              ("sideEffectType", sideEffect),
              ("stopPrice", create.stopPrice),
              ("symbol", Some(create.symbol)),
              ("timeInForce", TimeWord(create)),
              ("timestamp", Some(Whole(now))),
              ("type", Some(TypeWord(create)))])
  {
    hide Name, Prints, Clean, Tidy, QuerySays, QueryReads, Whole;
    hide SideWord, TypeWord, TimeWord, MapOrderType, MapTimeInForce, MapSide, SideText, TypeText, Defined;
    var r := Request.NewOrderUrl(create, requestId, prevention, recvWindow, now, sideEffect);
    TidyIsClean(r);
    Said(text, r);
    SideIs(create);
    TypeIs(create);
    TimeIs(create);
    QueryNamed(text, ContentOf(r), [
      (Name(IsIsolated), if create.marginMode == ISOLATED then Some("TRUE") else None),
      (Name(NewClientOrderId), Some(requestId)),
      (Name(Price), create.price),
      (Name(Quantity), Some(create.quantity)),
      (Name(RecvWindow), Some(Whole(recvWindow))),
      (Name(SelfTradePreventionMode), prevention),
      (Name(Key.Side), Some(SideWord(create))),
      (Name(SideEffectType), sideEffect),
      (Name(StopPrice), create.stopPrice),
      (Name(Symbol), Some(create.symbol)),
      (Name(Key.TimeInForce), TimeWord(create)),
      (Name(Timestamp), Some(Whole(now))),
      (Name(Type), Some(TypeWord(create)))]);
    EarlyNames();
    LateNames();
  }

  /** A new order over the web socket: the same without what is about margin, and times as numbers. */
  lemma PlaceOrderJsonReads(text: string, create: CreateOrder, requestId: string, prevention: Option<string>, recvWindow: int, now: int)
    requires Prints(text, Request.PlaceOrderJson(create, requestId, prevention, recvWindow, now))
    requires Tidy(Request.PlaceOrderJson(create, requestId, prevention, recvWindow, now))
    ensures ObjectReads(text, [
              ("newClientOrderId", Some(Text(requestId))),
              ("price", AsText(create.price)),
              ("quantity", Some(Text(create.quantity))),
              ("recvWindow", Some(Number(Whole(recvWindow)))),
              ("selfTradePreventionMode", AsText(prevention)),
              ("side", Some(Text(SideWord(create)))),
              ("stopPrice", AsText(create.stopPrice)),
              ("symbol", Some(Text(create.symbol))),
              ("timeInForce", AsText(TimeWord(create))),
              ("timestamp", Some(Number(Whole(now)))),
              ("type", Some(Text(TypeWord(create))))])
  {
    hide Name, Prints, Clean, Tidy, ObjectSays, ObjectReads, Whole, Worth;
    hide SideWord, TypeWord, TimeWord, MapOrderType, MapTimeInForce, MapSide, SideText, TypeText, Defined;
    var r := Request.PlaceOrderJson(create, requestId, prevention, recvWindow, now);
    TidyIsClean(r);
    Said(text, r);
    SideIs(create);
    TypeIs(create);
    TimeIs(create);
    ObjectNamed(text, ContentOf(r), [
      (Name(NewClientOrderId), Worth(NewClientOrderId, Some(requestId))),
      (Name(Price), Worth(Price, create.price)),
      (Name(Quantity), Worth(Quantity, Some(create.quantity))),
      (Name(RecvWindow), Worth(RecvWindow, Some(Whole(recvWindow)))),
      (Name(SelfTradePreventionMode), Worth(SelfTradePreventionMode, prevention)),
      (Name(Key.Side), Worth(Key.Side, Some(SideWord(create)))),
      (Name(StopPrice), Worth(StopPrice, create.stopPrice)),
      (Name(Symbol), Worth(Symbol, Some(create.symbol))),
      (Name(Key.TimeInForce), Worth(Key.TimeInForce, TimeWord(create))),
      (Name(Timestamp), Worth(Timestamp, Some(Whole(now)))),
      (Name(Type), Worth(Type, Some(TypeWord(create))))]);
    EarlyNames();
    LateNames();
    Worths(NewClientOrderId, Some(requestId));
    Worths(Price, create.price);
    Worths(Quantity, Some(create.quantity));
    Worths(RecvWindow, Some(Whole(recvWindow)));
    Worths(SelfTradePreventionMode, prevention);
    Worths(Key.Side, Some(SideWord(create)));
    Worths(StopPrice, create.stopPrice);
    Worths(Symbol, Some(create.symbol));
    Worths(Key.TimeInForce, TimeWord(create));
    Worths(Timestamp, Some(Whole(now)));
    Worths(Type, Some(TypeWord(create)));
  }

  /** An amendment: the new id is that of this request, the original id that of the request to be amended, and
      the exchange's own id, if known, is a number. */
  lemma AmendOrderJsonReads(text: string, order: Order, requestId: string, previousRequestId: string, quantity: string,
                            recvWindow: int, now: int)
    requires Prints(text, Request.AmendOrderJson(order, requestId, previousRequestId, quantity, recvWindow, now))
    requires Tidy(Request.AmendOrderJson(order, requestId, previousRequestId, quantity, recvWindow, now))
    ensures ObjectReads(text, [
              ("newClientOrderId", Some(Text(requestId))),
              ("orderId", if order.externalOrderId == "" then None else Some(Number(order.externalOrderId))),
              ("origClientOrderId", Some(Text(previousRequestId))),
              ("newQty", Some(Text(quantity))),
              ("recvWindow", Some(Number(Whole(recvWindow)))),
              ("symbol", Some(Text(order.symbol))),
              ("timestamp", Some(Number(Whole(now))))])
  {
    hide Name, Prints, Clean, Tidy, ObjectSays, ObjectReads, Whole, Worth;
    var r := Request.AmendOrderJson(order, requestId, previousRequestId, quantity, recvWindow, now);
    TidyIsClean(r);
    Said(text, r);
    ObjectNamed(text, ContentOf(r), [
      (Name(NewClientOrderId), Worth(NewClientOrderId, Some(requestId))),
      (Name(OrderId), Worth(OrderId, if order.externalOrderId == "" then None else Some(order.externalOrderId))),
      (Name(OrigClientOrderId), Worth(OrigClientOrderId, Some(previousRequestId))),
      (Name(NewQty), Worth(NewQty, Some(quantity))),
      (Name(RecvWindow), Worth(RecvWindow, Some(Whole(recvWindow)))),
      (Name(Symbol), Worth(Symbol, Some(order.symbol))),
      (Name(Timestamp), Worth(Timestamp, Some(Whole(now))))]);
    EarlyNames();
    LateNames();
    Worths(NewClientOrderId, Some(requestId));
    Worths(OrderId, if order.externalOrderId == "" then None else Some(order.externalOrderId));
    Worths(OrigClientOrderId, Some(previousRequestId));
    Worths(NewQty, Some(quantity));
    Worths(RecvWindow, Some(Whole(recvWindow)));
    Worths(Symbol, Some(order.symbol));
    Worths(Timestamp, Some(Whole(now)));
  }

  /** A cancellation over the web socket: the new id is that of this request, the original id that of the
      request to be cancelled, and the exchange's own id, if known, is a number. */
  lemma CancelOrderJsonReads(text: string, order: Order, requestId: string, previousRequestId: string,
                             restrictions: Option<string>, recvWindow: int, now: int)
    requires Prints(text, Request.CancelOrderJson(order, requestId, previousRequestId, restrictions, recvWindow, now))
    requires Tidy(Request.CancelOrderJson(order, requestId, previousRequestId, restrictions, recvWindow, now))
    ensures ObjectReads(text, [
              ("cancelRestrictions", AsText(restrictions)),
              ("newClientOrderId", Some(Text(requestId))),
              ("orderId", if order.externalOrderId == "" then None else Some(Number(order.externalOrderId))),
              ("origClientOrderId", Some(Text(previousRequestId))),
              ("recvWindow", Some(Number(Whole(recvWindow)))),
              ("symbol", Some(Text(order.symbol))),
              ("timestamp", Some(Number(Whole(now))))])
  {
    hide Name, Prints, Clean, Tidy, ObjectSays, ObjectReads, Whole, Worth;
    var r := Request.CancelOrderJson(order, requestId, previousRequestId, restrictions, recvWindow, now);
    TidyIsClean(r);
    Said(text, r);
    ObjectNamed(text, ContentOf(r), [
      (Name(CancelRestrictions), Worth(CancelRestrictions, restrictions)),
      (Name(NewClientOrderId), Worth(NewClientOrderId, Some(requestId))),
      (Name(OrderId), Worth(OrderId, if order.externalOrderId == "" then None else Some(order.externalOrderId))),
      (Name(OrigClientOrderId), Worth(OrigClientOrderId, Some(previousRequestId))),
      (Name(RecvWindow), Worth(RecvWindow, Some(Whole(recvWindow)))),
      (Name(Symbol), Worth(Symbol, Some(order.symbol))),
      (Name(Timestamp), Worth(Timestamp, Some(Whole(now))))]);
    EarlyNames();
    LateNames();
    Worths(CancelRestrictions, restrictions);
    Worths(NewClientOrderId, Some(requestId));
    Worths(OrderId, if order.externalOrderId == "" then None else Some(order.externalOrderId));
    Worths(OrigClientOrderId, Some(previousRequestId));
    Worths(RecvWindow, Some(Whole(recvWindow)));
    Worths(Symbol, Some(order.symbol));
    Worths(Timestamp, Some(Whole(now)));
  }

  /** A cancellation over REST: the order goes by the exchange's id if that is known and by the client's
      otherwise, never by both. */
  lemma CancelOrderUrlReads(text: string, order: Order, requestId: string, restrictions: Option<string>, recvWindow: int, now: int)
    requires Prints(text, Request.CancelOrderUrl(order, requestId, restrictions, recvWindow, now))
    requires Tidy(Request.CancelOrderUrl(order, requestId, restrictions, recvWindow, now))
    ensures QueryReads(text, [
              ("isIsolated", if order.marginMode == ISOLATED then Some("TRUE") else None),
              ("newClientOrderId", Some(requestId)),
              ("cancelRestrictions", restrictions),
              ("origClientOrderId", if order.externalOrderId == "" then Some(order.clientOrderId) else None),
              ("orderId", if order.externalOrderId == "" then None else Some(order.externalOrderId)),
              ("recvWindow", Some(Whole(recvWindow))),
              ("symbol", Some(order.symbol)),
              ("timestamp", Some(Whole(now)))])
  {
    hide Name, Prints, Clean, Tidy, QuerySays, QueryReads, Whole;
    var r := Request.CancelOrderUrl(order, requestId, restrictions, recvWindow, now);
    TidyIsClean(r);
    Said(text, r);
    QueryNamed(text, ContentOf(r), [
      (Name(IsIsolated), if order.marginMode == ISOLATED then Some("TRUE") else None),
      (Name(NewClientOrderId), Some(requestId)),
      (Name(CancelRestrictions), restrictions),
      (Name(OrigClientOrderId), if order.externalOrderId == "" then Some(order.clientOrderId) else None),
      (Name(OrderId), if order.externalOrderId == "" then None else Some(order.externalOrderId)),
      (Name(RecvWindow), Some(Whole(recvWindow))),
      (Name(Symbol), Some(order.symbol)),
      (Name(Timestamp), Some(Whole(now)))]);
    EarlyNames();
    LateNames();
  }

  /** A cancellation of all orders in a symbol: of the isolated positions, of the cross ones, or without saying
      which. */
  lemma CancelAllUrlReads(text: string, symbol: string, marginMode: MarginMode, recvWindow: int, now: int)
    requires Prints(text, Request.CancelAllUrl(symbol, marginMode, recvWindow, now))
    requires Tidy(Request.CancelAllUrl(symbol, marginMode, recvWindow, now))
    ensures QueryReads(text, [
              ("isIsolated", if marginMode == ISOLATED then Some("TRUE") else if marginMode == CROSS then Some("FALSE") else None),
              ("symbol", Some(symbol)),
              ("recvWindow", Some(Whole(recvWindow))),
              ("timestamp", Some(Whole(now)))])
  {
    hide Name, Prints, Clean, Tidy, QuerySays, QueryReads, Whole;
    var r := Request.CancelAllUrl(symbol, marginMode, recvWindow, now);
    TidyIsClean(r);
    Said(text, r);
    QueryNamed(text, ContentOf(r), [
      (Name(IsIsolated), if marginMode == ISOLATED then Some("TRUE") else if marginMode == CROSS then Some("FALSE") else None),
      (Name(Symbol), Some(symbol)),
      (Name(RecvWindow), Some(Whole(recvWindow))),
      (Name(Timestamp), Some(Whole(now)))]);
    EarlyNames();
    LateNames();
  }

  /** A request for trades: how many, since when, and in which symbol. */
  lemma MyTradesUrlReads(text: string, symbol: string, lookback: int, limit: nat, now: int)
    requires Prints(text, Request.MyTradesUrl(symbol, lookback, limit, now))
    requires Tidy(Request.MyTradesUrl(symbol, lookback, limit, now))
    ensures QueryReads(text, [
              ("limit", Some(Whole(limit))),
              ("startTime", Some(Whole(Milliseconds(now * 1_000_000 - lookback)))),
              ("symbol", Some(symbol))])
  {
    hide Name, Prints, Clean, Tidy, QuerySays, QueryReads, Whole, Milliseconds;
    var r := Request.MyTradesUrl(symbol, lookback, limit, now);
    TidyIsClean(r);
    Said(text, r);
    QueryNamed(text, ContentOf(r), [
      (Name(Limit), Some(Whole(limit))),
      (Name(StartTime), Some(Whole(Milliseconds(now * 1_000_000 - lookback)))),
      (Name(Symbol), Some(symbol))]);
    EarlyNames();
    LateNames();
  }
}
