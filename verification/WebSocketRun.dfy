/** What holds over every run of the web-socket stream: the ids it hands out, where the replies to
    them go, and which orders a cancel-all reaches. */
module WebSocketRun {
  import opened Words
  import opened Enumeration
  import opened WSAPIRequest
  import opened WSAPIParser
  import opened WebSocket

  /** The request type that belongs to a "method" of the exchange. */
  function TypeOfRpc(rpc: string): WSAPIType {
    match rpc
    case "session.logon" => SESSION_LOGON
    case "userDataStream.subscribe" => USER_DATA_STREAM_SUBSCRIBE
    case "account.status" => ACCOUNT_STATUS
    case "openOrders.status" => OPEN_ORDERS_STATUS
    case "myTrades" => MY_TRADES
    case "order.place" => ORDER_PLACE
    case "order.amend.keepPriority" => ORDER_AMEND_KEEP_PRIORITY
    case "order.cancel" => ORDER_CANCEL
    case "openOrders.cancelAll" => OPEN_ORDERS_CANCEL_ALL
    case _ => WSAPIType.UNKNOWN_INTERNAL
  }

  lemma RpcTypes()
    ensures TypeOfRpc("session.logon") == SESSION_LOGON
    ensures TypeOfRpc("userDataStream.subscribe") == USER_DATA_STREAM_SUBSCRIBE
    ensures TypeOfRpc("account.status") == ACCOUNT_STATUS
    ensures TypeOfRpc("openOrders.status") == OPEN_ORDERS_STATUS
    ensures TypeOfRpc("myTrades") == MY_TRADES
    ensures TypeOfRpc("order.place") == ORDER_PLACE
    ensures TypeOfRpc("order.amend.keepPriority") == ORDER_AMEND_KEEP_PRIORITY
    ensures TypeOfRpc("order.cancel") == ORDER_CANCEL
    ensures TypeOfRpc("openOrders.cancelAll") == OPEN_ORDERS_CANCEL_ALL
  {
  }

  /** The number of the i-th request of a stream. */
  function Sequence(config: Config, i: nat): uint32 {
    (First(config) + i + 1) % TWO_32
  }

  function RequestOf(config: Config, i: nat, m: Message): Request {
    Request(Sequence(config, i), TypeOfRpc(m.rpc), m.userId, m.orderId, m.version, 0)
  }

  /** The counter has advanced once per message, and every id tells its message's number, type and
      originator. */
  ghost predicate Logged(config: Config, s: State) {
    && s.requestId == (First(config) + |s.sent|) % TWO_32
    && forall i :: 0 <= i < |s.sent| ==>
        && TypeOfRpc(s.sent[i].rpc) != WSAPIType.UNKNOWN_INTERNAL
        && s.sent[i].id == EncodeText(RequestOf(config, i, s.sent[i]))
  }

  lemma Wrap(a: nat, b: nat)
    ensures (a % TWO_32 + b) % TWO_32 == (a + b) % TWO_32
  {
  }

  lemma SendLogged(config: Config, s: State, rpc: string, userId: uint8, orderId: uint64, version: uint32, symbol: string)
    requires Logged(config, s) && TypeOfRpc(rpc) != WSAPIType.UNKNOWN_INTERNAL
    ensures Logged(config, Send(s, rpc, TypeOfRpc(rpc), userId, orderId, version, symbol))
  {
    hide EncodeText, TypeOfRpc;
    RpcTypes();
    Wrap(First(config) + |s.sent|, 1);
  }

  lemma {:induction false} SendTradesLogged(config: Config, s: State, symbols: seq<string>)
    requires Logged(config, s)
    ensures Logged(config, SendTrades(s, symbols))
    ensures s.sent <= SendTrades(s, symbols).sent
    ensures SendTrades(s, symbols).openOrdersSymbols == s.openOrdersSymbols
  {
    hide EncodeText, TypeOfRpc;
    RpcTypes();
    if symbols != [] {
      var front := symbols[..|symbols| - 1];
      SendTradesLogged(config, s, front);
      SendLogged(config, SendTrades(s, front), "myTrades", 0, 0, 0, symbols[|symbols| - 1]);
    }
  }

  lemma {:induction false} SendCancelsLogged(config: Config, s: State, userId: uint8, symbols: seq<string>)
    requires Logged(config, s)
    ensures Logged(config, SendCancels(s, userId, symbols))
    ensures s.sent <= SendCancels(s, userId, symbols).sent
    ensures SendCancels(s, userId, symbols).openOrdersSymbols == s.openOrdersSymbols
  {
    hide EncodeText, TypeOfRpc;
    RpcTypes();
    if symbols != [] {
      var front := symbols[..|symbols| - 1];
      SendCancelsLogged(config, s, userId, front);
      SendLogged(config, SendCancels(s, userId, front), "openOrders.cancelAll", userId, 0, 0, symbols[|symbols| - 1]);
    }
  }

  /** Every step keeps the log, only adds messages, and only adds symbols. */
  lemma StepLogged(config: Config, s: State, c: Command, t: State, verdict: Verdict)
    requires Logged(config, s) && Step(config, s, c, t, verdict)
    ensures Logged(config, t) && s.sent <= t.sent && s.openOrdersSymbols <= t.openOrdersSymbols
  {
    hide EncodeText, TypeOfRpc;
    RpcTypes();
    match c
    case ConnectionStatus(_) =>
    case SessionLogon => SendLogged(config, s, "session.logon", 0, 0, 0, "");
    case UserDataStreamSubscribe => SendLogged(config, s, "userDataStream.subscribe", 0, 0, 0, "");
    case AccountStatus => SendLogged(config, s, "account.status", 0, 0, 0, "");
    case OpenOrdersStatus => SendLogged(config, s, "openOrders.status", 0, 0, 0, "");
    case MyTrades => SendTradesLogged(config, s, config.symbols);
    case OrderPlace(userId, orderId, symbol, _) =>
      SendLogged(config, s.(openOrdersSymbols := s.openOrdersSymbols + {symbol}), "order.place", userId, orderId, 1, symbol);
    case OrderAmendKeepPriority(userId, orderId, version, _) =>
      SendLogged(config, s, "order.amend.keepPriority", userId, orderId, version, "");
    case OrderCancel(userId, orderId, version, _) => SendLogged(config, s, "order.cancel", userId, orderId, version, "");
    case OpenOrdersCancelAll(userId, filter) =>
      if s.ready {
        var order :| Enumerates(order, Matching(s.openOrdersSymbols, filter)) && t == SendCancels(s, userId, order);
        SendCancelsLogged(config, s, userId, order);
      }
    case OpenOrdersReply(_, _) =>
    case TradesReply(_) =>
  }

  lemma {:induction false} RunLogged(r: Trace, k: nat)
    requires Run(r) && k < |r.states|
    ensures Logged(r.config, r.states[k])
  {
    hide EncodeText, SendCancels, Step;
    if k > 0 {
      RunLogged(r, k - 1);
      StepLogged(r.config, r.states[k - 1], r.commands[k - 1], r.states[k], r.verdicts[k - 1]);
    }
  }

  lemma {:induction false} RunGrows(r: Trace, k: nat, l: nat)
    requires Run(r) && k <= l < |r.states|
    ensures r.states[k].sent <= r.states[l].sent && r.states[k].openOrdersSymbols <= r.states[l].openOrdersSymbols
  {
    hide EncodeText, SendCancels, Step, Logged;
    if k < l {
      RunGrows(r, k, l - 1);
      RunLogged(r, l - 1);
      StepLogged(r.config, r.states[l - 1], r.commands[l - 1], r.states[l], r.verdicts[l - 1]);
    }
  }

  // --- ids

  lemma SameResidue(a: nat, i: nat, j: nat)
    requires i <= j
    ensures (a + i) % TWO_32 == (a + j) % TWO_32 <==> (j - i) % TWO_32 == 0
  {
    var d := j - i;
    Wrap(d, a + i);
    Wrap(a + i, d);
  }

  /** Two requests of a stream share their number exactly if the counter has gone round in between;
      otherwise their ids differ. */
  lemma DistinctIds(r: Trace, k: nat, i: nat, j: nat)
    requires Run(r) && k < |r.states|
    requires i < j < |r.states[k].sent|
    ensures Sequence(r.config, i) == Sequence(r.config, j) <==> (j - i) % TWO_32 == 0
    ensures (j - i) % TWO_32 != 0 ==> r.states[k].sent[i].id != r.states[k].sent[j].id
  {
    hide EncodeText, TypeOfRpc;
    RunLogged(r, k);
    SameResidue(First(r.config) + 1, i, j);
    if r.states[k].sent[i].id == r.states[k].sent[j].id {
      Injective(RequestOf(r.config, i, r.states[k].sent[i]), RequestOf(r.config, j, r.states[k].sent[j]));
    }
  }

  // --- replies

  /** The handler that has to see the reply to `m`. */
  function HandlerOf(m: Message, request: Request): Call {
    match m.rpc
    case "session.logon" => OnSessionLogon
    case "userDataStream.subscribe" => OnUserDataStreamSubscribe
    case "account.status" => OnAccount
    case "openOrders.status" => OnOpenOrders
    case "myTrades" => OnTrades
    case "order.place" => OnOrderPlace(request)
    case "order.amend.keepPriority" => OnOrderAmendKeepPriority(request)
    case "order.cancel" => OnCancelOrder(request)
    case _ => OnCancelOpenOrders(request)
  }

  /** A reply that echoes the id of a message reaches the handler of what was asked, with the
      originator of the message, in every state of every run. */
  lemma ReplyReachesSender(r: Trace, k: nat, i: nat, members: seq<Member>)
    requires Run(r) && k < |r.states|
    requires i < |r.states[k].sent| && Echoes(members, r.states[k].sent[i].id)
    ensures var m := r.states[k].sent[i];
            var request := Request(Sequence(r.config, i), TypeOfRpc(m.rpc), m.userId, m.orderId, m.version, 0);
            Route(members, false) == Called(HandlerOf(m, request))
  {
    hide EncodeText, Route;
    RunLogged(r, k);
    RouteReply(members, RequestOf(r.config, i, r.states[k].sent[i]), false);
  }

  /** The originator of an order request and the handler its reply belongs to. */
  ghost predicate Originates(c: Command, call: Call) {
    match c
    case OrderPlace(userId, orderId, _, _) =>
      call.OnOrderPlace? && call.request.userId == userId && call.request.orderId == orderId && call.request.version == 1
    case OrderAmendKeepPriority(userId, orderId, version, _) =>
      && call.OnOrderAmendKeepPriority?
      && call.request.userId == userId && call.request.orderId == orderId && call.request.version == version
    case OrderCancel(userId, orderId, version, _) =>
      call.OnCancelOrder? && call.request.userId == userId && call.request.orderId == orderId && call.request.version == version
    case _ => false
  }

  ghost predicate IsOrderRequest(c: Command) {
    c.OrderPlace? || c.OrderAmendKeepPriority? || c.OrderCancel?
  }

  /** From the request of a user to the reply, across any later part of the run: an accepted order
      request adds one message; whenever a reply echoes its id, the matching handler gets back the
      user, the order and the version of that request; and no other message of the run carries the
      id unless the counter has gone round. */
  lemma OrderReplyRoundTrip(r: Trace, n: nat, k: nat, members: seq<Member>)
    requires Run(r) && n < k < |r.states|
    requires IsOrderRequest(r.commands[n]) && r.verdicts[n] == Done
    ensures var i := |r.states[n].sent|;
            && |r.states[n + 1].sent| == i + 1 <= |r.states[k].sent|
            && (Echoes(members, r.states[k].sent[i].id) ==>
                  && Route(members, false).Called?
                  && Originates(r.commands[n], Route(members, false).call))
            && (forall j :: 0 <= j < |r.states[k].sent| && j != i && -TWO_32 < j - i < TWO_32 ==>
                  r.states[k].sent[j].id != r.states[k].sent[i].id)
  {
    hide EncodeText, TypeOfRpc, Route;
    RpcTypes();
    var i := |r.states[n].sent|;
    assert Step(r.config, r.states[n], r.commands[n], r.states[n + 1], r.verdicts[n]);
    assert |r.states[n + 1].sent| == i + 1;
    RunGrows(r, n + 1, k);
    assert r.states[k].sent[i] == r.states[n + 1].sent[i];
    if Echoes(members, r.states[k].sent[i].id) {
      ReplyReachesSender(r, k, i, members);
    }
    forall j | 0 <= j < |r.states[k].sent| && j != i && -TWO_32 < j - i < TWO_32
      ensures r.states[k].sent[j].id != r.states[k].sent[i].id
    {
      DistinctIds(r, k, if i < j then i else j, if i < j then j else i);
    }
  }

  // --- cancel-all

  function Symbols(messages: seq<Message>): seq<string> {
    seq(|messages|, i requires 0 <= i < |messages| => messages[i].symbol)
  }

  function AckSymbols(acks: seq<Ack>): seq<string> {
    seq(|acks|, i requires 0 <= i < |acks| => acks[i].symbol)
  }

  lemma {:induction false} SendCancelsEffect(s: State, userId: uint8, symbols: seq<string>)
    ensures var t := SendCancels(s, userId, symbols);
            && s.sent <= t.sent && s.acks <= t.acks
            && Symbols(t.sent[|s.sent|..]) == symbols
            && AckSymbols(t.acks[|s.acks|..]) == symbols
            && (forall i :: |s.sent| <= i < |t.sent| ==> t.sent[i].rpc == "openOrders.cancelAll" && t.sent[i].userId == userId)
  {
    hide EncodeText;
    if symbols != [] {
      var front := symbols[..|symbols| - 1];
      SendCancelsEffect(s, userId, front);
      var u := SendCancels(s, userId, front);
      var t := SendCancels(s, userId, symbols);
      assert t.sent[|s.sent|..] == u.sent[|s.sent|..] + [t.sent[|t.sent| - 1]];
      assert t.acks[|s.acks|..] == u.acks[|s.acks|..] + [t.acks[|t.acks| - 1]];
      assert symbols == front + [symbols[|symbols| - 1]];
    }
  }

  /** The symbols of all orders placed through the stream, and of all orders it downloaded, during
      the first k commands of a run. */
  ghost predicate Touched(r: Trace, k: nat, symbol: string)
    requires k <= |r.commands| < |r.states|
  {
    exists n :: 0 <= n < k && (
        || (r.commands[n].OrderPlace? && r.states[n].ready && r.commands[n].symbol == symbol)
        || (r.commands[n].OpenOrdersReply? && r.commands[n].status == 200
            && exists o :: o in r.commands[n].orders && o.clientOrderId != "" && o.symbol == symbol))
  }

  lemma {:induction false} SymbolsAreTouched(r: Trace, k: nat, symbol: string)
    requires Run(r) && k < |r.states|
    ensures symbol in r.states[k].openOrdersSymbols <==> Touched(r, k, symbol)
  {
    hide EncodeText, SendCancels;
    if k > 0 {
      var s, c, t, verdict := r.states[k - 1], r.commands[k - 1], r.states[k], r.verdicts[k - 1];
      SymbolsAreTouched(r, k - 1, symbol);
      RunLogged(r, k - 1);
      assert Step(r.config, s, c, t, verdict);
      var here := || (c.OrderPlace? && s.ready && c.symbol == symbol)
                  || (c.OpenOrdersReply? && c.status == 200 && exists o :: o in c.orders && o.clientOrderId != "" && o.symbol == symbol);
      assert symbol in t.openOrdersSymbols <==> symbol in s.openOrdersSymbols || here by {
        StepSymbols(r.config, s, c, t, verdict);
      }
      assert Touched(r, k, symbol) <==> Touched(r, k - 1, symbol) || here;
    }
  }

  lemma StepSymbols(config: Config, s: State, c: Command, t: State, verdict: Verdict)
    requires Logged(config, s) && Step(config, s, c, t, verdict)
    ensures t.openOrdersSymbols == s.openOrdersSymbols
              + (if c.OrderPlace? && s.ready then {c.symbol} else {})
              + (if c.OpenOrdersReply? && c.status == 200 then Named(c.orders) else {})
  {
    hide EncodeText, TypeOfRpc;
    match c
    case MyTrades => SendTradesLogged(config, s, config.symbols);
    case OpenOrdersCancelAll(userId, filter) =>
      if s.ready {
        var order :| Enumerates(order, Matching(s.openOrdersSymbols, filter)) && t == SendCancels(s, userId, order);
        SendCancelsLogged(config, s, userId, order);
      }
    case _ =>
  }

  /** A cancel-all while ready sends exactly one request, and exactly one FORWARDED acknowledgement,
      for each touched symbol that matches its filter, and nothing else. */
  lemma CancelAllCoverage(r: Trace, k: nat)
    requires Run(r) && k < |r.commands|
    requires r.commands[k].OpenOrdersCancelAll? && r.states[k].ready
    ensures r.verdicts[k] == Done
    ensures r.states[k].sent <= r.states[k + 1].sent && r.states[k].acks <= r.states[k + 1].acks
    ensures var filter := r.commands[k].symbol;
            var messages := r.states[k + 1].sent[|r.states[k].sent|..];
            var acks := r.states[k + 1].acks[|r.states[k].acks|..];
            && (forall m :: m in messages ==> m.rpc == "openOrders.cancelAll" && m.userId == r.commands[k].userId)
            && (forall symbol :: multiset(Symbols(messages))[symbol] == multiset(AckSymbols(acks))[symbol]
                  == if Touched(r, k, symbol) && (filter == "" || symbol == filter) then 1 else 0)
  {
    hide EncodeText, SendCancels;
    var s, t, userId, filter := r.states[k], r.states[k + 1], r.commands[k].userId, r.commands[k].symbol;
    var matching := Matching(s.openOrdersSymbols, filter);
    assert Step(r.config, s, r.commands[k], t, r.verdicts[k]);
    var order :| Enumerates(order, matching) && t == SendCancels(s, userId, order);
    SendCancelsEffect(s, userId, order);
    AsMultiset(order, matching);
    forall symbol
      ensures symbol in s.openOrdersSymbols <==> Touched(r, k, symbol)
    {
      SymbolsAreTouched(r, k, symbol);
    }
  }
}
