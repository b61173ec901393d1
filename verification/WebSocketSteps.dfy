/** What each command makes the web-socket stream send, and on which part of its history that depends. */
module WebSocketSteps {
  import opened Words
  import opened Enumeration
  import opened WSAPIRequest
  import opened WSAPIParser
  import opened WebSocket
  import opened WebSocketRun

  /** One message and no other. */
  predicate One(messages: seq<Message>, rpc: string, userId: int, orderId: int, version: int, symbol: string) {
    && |messages| == 1
    && messages[0].rpc == rpc
    && messages[0].userId == userId && messages[0].orderId == orderId && messages[0].version == version
    && messages[0].symbol == symbol
  }

  /** Whether trades are looked for: there is a lookback, or one for the first download after a start. */
  predicate LooksBack(config: Config, isFirst: bool) {
    if isFirst && config.tradesLookbackOnRestart != 0 then true else config.tradesLookback != 0
  }

  lemma {:induction false} TradesSent(s: State, symbols: seq<string>)
    ensures var t := SendTrades(s, symbols);
            && s.sent <= t.sent && |t.sent| == |s.sent| + |symbols|
            && t.ready == s.ready && t.tradesIsFirst == s.tradesIsFirst && t.acks == s.acks
            && forall i :: 0 <= i < |symbols| ==> One([t.sent[|s.sent| + i]], "myTrades", 0, 0, 0, symbols[i])
  {
    hide EncodeText;
    if symbols != [] {
      TradesSent(s, symbols[..|symbols| - 1]);
    }
  }

  lemma {:induction false} CancelsKeep(s: State, userId: uint8, symbols: seq<string>)
    ensures var t := SendCancels(s, userId, symbols);
            s.sent <= t.sent && t.ready == s.ready && t.tradesIsFirst == s.tradesIsFirst
  {
    hide EncodeText;
    if symbols != [] {
      CancelsKeep(s, userId, symbols[..|symbols| - 1]);
    }
  }

  /** What the stream sends for a request of its own: one message, without an originator. */
  lemma OwnRequests(config: Config, s: State, c: Command, t: State, verdict: Verdict)
    requires Step(config, s, c, t, verdict)
    requires c.SessionLogon? || c.UserDataStreamSubscribe? || c.AccountStatus? || c.OpenOrdersStatus?
    ensures verdict == Done && s.sent <= t.sent && t.acks == s.acks
    ensures var messages := t.sent[|s.sent|..];
            match c
            case SessionLogon => One(messages, "session.logon", 0, 0, 0, "")
            case UserDataStreamSubscribe => One(messages, "userDataStream.subscribe", 0, 0, 0, "")
            case AccountStatus => One(messages, "account.status", 0, 0, 0, "")
            case _ => One(messages, "openOrders.status", 0, 0, 0, "")
  {
    hide EncodeText;
  }

  /** Trades are asked for with one message per symbol of the settings, in their order, if there is a
      lookback, and not at all if there is none. */
  lemma TradeRequests(config: Config, s: State, t: State, verdict: Verdict)
    requires Step(config, s, MyTrades, t, verdict)
    ensures verdict == Done && s.sent <= t.sent && t.acks == s.acks
    ensures var messages := t.sent[|s.sent|..];
            if LooksBack(config, s.tradesIsFirst) then
              && |messages| == |config.symbols|
              && forall i :: 0 <= i < |messages| ==> One([messages[i]], "myTrades", 0, 0, 0, config.symbols[i])
            else messages == []
  {
    TradesSent(s, config.symbols);
    hide EncodeText, SendTrades;
  }

  /** What the stream makes of an order request: rejected and nothing sent unless it is ready, the template
      is known and no price is to be amended; otherwise one message, with the user, the order and the version
      of the request, the version being one for a new order. */
  lemma OrderRequests(config: Config, s: State, c: Command, t: State, verdict: Verdict)
    requires Step(config, s, c, t, verdict) && IsOrderRequest(c)
    ensures s.sent <= t.sent && t.acks == s.acks
    ensures !s.ready <==> verdict == NotReady
    ensures s.ready && (if c.OrderAmendKeepPriority? then c.hasPrice else !c.templateKnown) <==> verdict == Rejected
    ensures var messages := t.sent[|s.sent|..];
            if verdict != Done then messages == []
            else match c
              case OrderPlace(userId, orderId, symbol, _) => One(messages, "order.place", userId, orderId, 1, symbol)
              case OrderAmendKeepPriority(userId, orderId, version, _) => One(messages, "order.amend.keepPriority", userId, orderId, version, "")
              case _ => One(messages, "order.cancel", c.userId, c.orderId, c.version, "")
  {
    hide EncodeText;
  }

  /** Everything else sends nothing, but for a cancel-all while ready. */
  lemma Silent(config: Config, s: State, c: Command, t: State, verdict: Verdict)
    requires Step(config, s, c, t, verdict)
    requires c.ConnectionStatus? || c.OpenOrdersReply? || c.TradesReply? || (c.OpenOrdersCancelAll? && !s.ready)
    ensures t.sent == s.sent && t.acks == s.acks && (verdict == NotReady <==> c.OpenOrdersCancelAll?)
  {
  }

  lemma StepKeeps(config: Config, s: State, c: Command, t: State, verdict: Verdict)
    requires Step(config, s, c, t, verdict)
    ensures t.ready == (if c.ConnectionStatus? then c.ready else s.ready)
    ensures t.tradesIsFirst <==> s.tradesIsFirst && c != TradesReply(200)
  {
    hide EncodeText, SendCancels, SendTrades;
    match c
    case MyTrades => TradesSent(s, config.symbols);
    case OpenOrdersCancelAll(userId, filter) =>
      if s.ready {
        var order :| Enumerates(order, Matching(s.openOrdersSymbols, filter)) && t == SendCancels(s, userId, order);
        CancelsKeep(s, userId, order);
      }
    case _ =>
  }

  /** In every state of every run: the stream is ready if and only if its last connection status said so, and
      trades are looked for with the lookback of a restart until the first download of trades has succeeded. */
  lemma {:induction false} StateIsHistory(r: Trace, k: nat)
    requires Run(r) && k < |r.states|
    ensures r.states[k].ready <==>
            exists n :: 0 <= n < k && r.commands[n] == ConnectionStatus(true)
                        && forall m :: n < m < k ==> !r.commands[m].ConnectionStatus?
    ensures r.states[k].tradesIsFirst <==> forall n :: 0 <= n < k ==> r.commands[n] != TradesReply(200)
  {
    if k > 0 {
      StateIsHistory(r, k - 1);
      StepKeeps(r.config, r.states[k - 1], r.commands[k - 1], r.states[k], r.verdicts[k - 1]);
      hide Step;
    }
  }
}
