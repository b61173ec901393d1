/** The web-socket order-entry stream: every request draws the next number of a per-stream 32-bit
    counter and carries it, with the originator, in its id. */
module WebSocket {
  import opened Words
  import opened Enumeration
  import opened WSAPIRequest
  import opened WSAPIParser

  const REQUEST_ID := 1_000_000

  datatype Config = Config(streamId: uint16, tradesLookback: nat, tradesLookbackOnRestart: nat, symbols: seq<string>)

  /** A text handed to the connection: its id, its "method", and the originator the gateway recorded. */
  datatype Message = Message(id: string, rpc: string, userId: uint8, orderId: uint64, version: uint32, symbol: string)

  /** A FORWARDED acknowledgement of a cancel-all request. */
  datatype Ack = Ack(symbol: string)

  datatype State = State(
    ready: bool,
    requestId: uint32,
    openOrdersSymbols: set<string>,
    tradesIsFirst: bool,
    sent: seq<Message>,
    acks: seq<Ack>)

  datatype OpenOrder = OpenOrder(clientOrderId: string, symbol: string)

  datatype Command =
    | ConnectionStatus(ready: bool)
    | SessionLogon
    | UserDataStreamSubscribe
    | AccountStatus
    | OpenOrdersStatus
    | MyTrades
    | OrderPlace(userId: uint8, orderId: uint64, symbol: string, templateKnown: bool)
    | OrderAmendKeepPriority(userId: uint8, orderId: uint64, version: uint32, hasPrice: bool)
    | OrderCancel(userId: uint8, orderId: uint64, version: uint32, templateKnown: bool)
    | OpenOrdersCancelAll(userId: uint8, symbol: string)
    | OpenOrdersReply(status: int, orders: seq<OpenOrder>)
    | TradesReply(status: int)

  datatype Verdict = Done | NotReady | Rejected

  // --- specification

  function First(config: Config): uint32 {
    REQUEST_ID * config.streamId % TWO_32
  }

  function Initial(config: Config): State {
    State(false, First(config), {}, true, [], [])
  }

  function Send(s: State, rpc: string, requestType: WSAPIType, userId: uint8, orderId: uint64, version: uint32, symbol: string): State {
    var sequence := (s.requestId + 1) % TWO_32;
    var id := EncodeText(Request(sequence, requestType, userId, orderId, version, 0));
    s.(requestId := sequence, sent := s.sent + [Message(id, rpc, userId, orderId, version, symbol)])
  }

  function SendTrades(s: State, symbols: seq<string>): State {
    if symbols == [] then s
    else Send(SendTrades(s, symbols[..|symbols| - 1]), "myTrades", MY_TRADES, 0, 0, 0, symbols[|symbols| - 1])
  }

  function SendCancels(s: State, userId: uint8, symbols: seq<string>): State {
    if symbols == [] then s
    else
      var symbol := symbols[|symbols| - 1];
      var t := Send(SendCancels(s, userId, symbols[..|symbols| - 1]), "openOrders.cancelAll", OPEN_ORDERS_CANCEL_ALL, userId, 0, 0, symbol);
      t.(acks := t.acks + [Ack(symbol)])
  }

  function Lookback(config: Config, isFirst: bool): nat {
    if isFirst && config.tradesLookbackOnRestart != 0 then config.tradesLookbackOnRestart else config.tradesLookback
  }

  /** The symbols a cancel-all applies to: all of them, or the given one if it is known. */
  function Matching(symbols: set<string>, filter: string): set<string> {
    set s | s in symbols && (filter == "" || s == filter)
  }

  function Named(orders: seq<OpenOrder>): set<string> {
    set o | o in orders && o.clientOrderId != "" :: o.symbol
  }

  lemma EnumerateNext(order: seq<string>, done: set<string>, filter: string, symbol: string)
    requires Enumerates(order, Matching(done, filter)) && symbol !in done
    ensures var matches := filter == "" || symbol == filter;
            Enumerates(if matches then order + [symbol] else order, Matching(done + {symbol}, filter))
  {
    var before, after := Matching(done, filter), Matching(done + {symbol}, filter);
    if filter == "" || symbol == filter {
      assert after == before + {symbol};
      Extend(order, before, symbol);
    } else {
      assert after == before;
    }
  }

  /** One step of the stream. A cancel-all visits the hashed symbols in some order. */
  ghost predicate Step(config: Config, s: State, c: Command, t: State, verdict: Verdict) {
    match c
    case ConnectionStatus(ready) => t == s.(ready := ready) && verdict == Done
    case SessionLogon => t == Send(s, "session.logon", SESSION_LOGON, 0, 0, 0, "") && verdict == Done
    case UserDataStreamSubscribe =>
      t == Send(s, "userDataStream.subscribe", USER_DATA_STREAM_SUBSCRIBE, 0, 0, 0, "") && verdict == Done
    case AccountStatus => t == Send(s, "account.status", ACCOUNT_STATUS, 0, 0, 0, "") && verdict == Done
    case OpenOrdersStatus => t == Send(s, "openOrders.status", OPEN_ORDERS_STATUS, 0, 0, 0, "") && verdict == Done
    case MyTrades =>
      t == (if Lookback(config, s.tradesIsFirst) != 0 then SendTrades(s, config.symbols) else s) && verdict == Done
    case OrderPlace(userId, orderId, symbol, templateKnown) =>
      if !s.ready then t == s && verdict == NotReady
      else
        var s' := s.(openOrdersSymbols := s.openOrdersSymbols + {symbol});
        if !templateKnown then t == s' && verdict == Rejected
        else t == Send(s', "order.place", ORDER_PLACE, userId, orderId, 1, symbol) && verdict == Done
    case OrderAmendKeepPriority(userId, orderId, version, hasPrice) =>
      if !s.ready then t == s && verdict == NotReady
      else if hasPrice then t == s && verdict == Rejected
      else t == Send(s, "order.amend.keepPriority", ORDER_AMEND_KEEP_PRIORITY, userId, orderId, version, "") && verdict == Done
    case OrderCancel(userId, orderId, version, templateKnown) =>
      if !s.ready then t == s && verdict == NotReady
      else if !templateKnown then t == s && verdict == Rejected
      else t == Send(s, "order.cancel", ORDER_CANCEL, userId, orderId, version, "") && verdict == Done
    case OpenOrdersCancelAll(userId, filter) =>
      if !s.ready then t == s && verdict == NotReady
      else
        && verdict == Done
        && exists order :: Enumerates(order, Matching(s.openOrdersSymbols, filter)) && t == SendCancels(s, userId, order)
    case OpenOrdersReply(status, orders) =>
      t == (if status == 200 then s.(openOrdersSymbols := s.openOrdersSymbols + Named(orders)) else s) && verdict == Done
    case TradesReply(status) =>
      t == (if status == 200 then s.(tradesIsFirst := false) else s) && verdict == Done
  }

  /** A history of the stream: command i leads from states[i] to states[i + 1]. */
  datatype Trace = Trace(config: Config, states: seq<State>, commands: seq<Command>, verdicts: seq<Verdict>)

  ghost predicate Run(r: Trace) {
    && |r.states| == |r.commands| + 1 == |r.verdicts| + 1
    && r.states[0] == Initial(r.config)
    && forall i :: 0 <= i < |r.commands| ==> Step(r.config, r.states[i], r.commands[i], r.states[i + 1], r.verdicts[i])
  }

  // --- the stream

  class Stream {
    const config: Config
    var ready: bool
    var requestId: uint32
    var openOrdersSymbols: set<string>
    var tradesIsFirst: bool
    var sent: seq<Message>
    var acks: seq<Ack>

    function View(): State
      reads this
    {
      State(ready, requestId, openOrdersSymbols, tradesIsFirst, sent, acks)
    }

    constructor (config: Config)
      ensures this.config == config && View() == Initial(config)
    {
      this.config := config;
      ready := false;
      requestId := REQUEST_ID * config.streamId % TWO_32;
      openOrdersSymbols := {};
      tradesIsFirst := true;
      sent := [];
      acks := [];
    }

    method OnConnectionStatus(ready: bool)
      modifies this`ready
      ensures Step(config, old(View()), ConnectionStatus(ready), View(), Done)
    {
      this.ready := ready;
    }

    method SendText(rpc: string, requestType: WSAPIType, userId: uint8, orderId: uint64, version: uint32, symbol: string)
      modifies this`requestId, this`sent
      ensures View() == Send(old(View()), rpc, requestType, userId, orderId, version, symbol)
    {
      requestId := (requestId + 1) % TWO_32;
      var id := Encode(Request(requestId, requestType, userId, orderId, version, 0));
      sent := sent + [Message(id, rpc, userId, orderId, version, symbol)];
    }

    method LogOn()
      modifies this`requestId, this`sent
      ensures Step(config, old(View()), SessionLogon, View(), Done)
    {
      SendText("session.logon", SESSION_LOGON, 0, 0, 0, "");
    }

    method SubscribeUserDataStream()
      modifies this`requestId, this`sent
      ensures Step(config, old(View()), UserDataStreamSubscribe, View(), Done)
    {
      SendText("userDataStream.subscribe", USER_DATA_STREAM_SUBSCRIBE, 0, 0, 0, "");
    }

    method GetAccountStatus()
      modifies this`requestId, this`sent
      ensures Step(config, old(View()), AccountStatus, View(), Done)
    {
      SendText("account.status", ACCOUNT_STATUS, 0, 0, 0, "");
    }

    method GetOpenOrdersStatus()
      modifies this`requestId, this`sent
      ensures Step(config, old(View()), OpenOrdersStatus, View(), Done)
    {
      SendText("openOrders.status", OPEN_ORDERS_STATUS, 0, 0, 0, "");
    }

    method GetMyTrades()
      modifies this`requestId, this`sent
      ensures Step(config, old(View()), MyTrades, View(), Done)
    {
      var lookback := Lookback(config, tradesIsFirst);
      if lookback != 0 && config.symbols != [] {
        for i := 0 to |config.symbols|
          invariant View() == SendTrades(old(View()), config.symbols[..i])
        {
          SendText("myTrades", MY_TRADES, 0, 0, 0, config.symbols[i]);
          assert config.symbols[..i + 1][..i] == config.symbols[..i];
        }
        assert config.symbols[..|config.symbols|] == config.symbols;
      }
    }

    method PlaceOrder(userId: uint8, orderId: uint64, symbol: string, templateKnown: bool) returns (verdict: Verdict)
      modifies this`requestId, this`sent, this`openOrdersSymbols
      ensures Step(config, old(View()), OrderPlace(userId, orderId, symbol, templateKnown), View(), verdict)
    {
      if !ready {
        return NotReady;
      }
      openOrdersSymbols := openOrdersSymbols + {symbol};
      if !templateKnown {
        return Rejected;
      }
      SendText("order.place", ORDER_PLACE, userId, orderId, 1, symbol);
      return Done;
    }

    method AmendOrder(userId: uint8, orderId: uint64, version: uint32, hasPrice: bool) returns (verdict: Verdict)
      modifies this`requestId, this`sent
      ensures Step(config, old(View()), OrderAmendKeepPriority(userId, orderId, version, hasPrice), View(), verdict)
    {
      if !ready {
        return NotReady;
      }
      if hasPrice {
        return Rejected;
      }
      SendText("order.amend.keepPriority", ORDER_AMEND_KEEP_PRIORITY, userId, orderId, version, "");
      return Done;
    }

    method CancelOrder(userId: uint8, orderId: uint64, version: uint32, templateKnown: bool) returns (verdict: Verdict)
      modifies this`requestId, this`sent
      ensures Step(config, old(View()), OrderCancel(userId, orderId, version, templateKnown), View(), verdict)
    {
      if !ready {
        return NotReady;
      }
      if !templateKnown {
        return Rejected;
      }
      SendText("order.cancel", ORDER_CANCEL, userId, orderId, version, "");
      return Done;
    }

    method CancelAllOrders(userId: uint8, filter: string) returns (verdict: Verdict)
      modifies this`requestId, this`sent, this`acks
      ensures Step(config, old(View()), OpenOrdersCancelAll(userId, filter), View(), verdict)
    {
      if !ready {
        return NotReady;
      }
      var rest := openOrdersSymbols;
      ghost var order: seq<string> := [];
      ghost var done: set<string> := {};
      while rest != {}
        invariant done !! rest && done + rest == openOrdersSymbols
        invariant Enumerates(order, Matching(done, filter))
        invariant View() == SendCancels(old(View()), userId, order)
      {
        var symbol :| symbol in rest;
        EnumerateNext(order, done, filter, symbol);
        rest, done := rest - {symbol}, done + {symbol};
        if filter != "" && symbol != filter {
          continue;
        }
        SendText("openOrders.cancelAll", OPEN_ORDERS_CANCEL_ALL, userId, 0, 0, symbol);
        acks := acks + [Ack(symbol)];
        assert (order + [symbol])[..|order|] == order;
        order := order + [symbol];
      }
      assert done == openOrdersSymbols;
      return Done;
    }

    method OnOpenOrders(status: int, orders: seq<OpenOrder>)
      modifies this`openOrdersSymbols
      ensures Step(config, old(View()), OpenOrdersReply(status, orders), View(), Done)
    {
      if status == 200 {
        for i := 0 to |orders|
          invariant openOrdersSymbols == old(openOrdersSymbols) + Named(orders[..i])
        {
          assert orders[..i + 1] == orders[..i] + [orders[i]];
          if orders[i].clientOrderId == "" {
            continue;
          }
          openOrdersSymbols := openOrdersSymbols + {orders[i].symbol};
        }
        assert orders[..|orders|] == orders;
      }
    }

    method OnTrades(status: int)
      modifies this`tradesIsFirst
      ensures Step(config, old(View()), TradesReply(status), View(), Done)
    {
      if status == 200 {
        tradesIsFirst := false;
      }
    }
  }
}
