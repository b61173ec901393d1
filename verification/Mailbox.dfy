/** The mailbox between a drop-copy stream, which asks for downloads, and an order-entry stream,
    which performs them: pairs of timestamps in a record that both streams share. */
module Mailbox {
  import opened Wrappers

  datatype Kind = ACCOUNT | ORDERS | TRADES | LISTEN_KEY_CROSS | ACCOUNT_CROSS | ORDERS_CROSS | TRADES_CROSS

  const SPOT := {ACCOUNT, ORDERS, TRADES}

  /** When a download was last asked for and when one was last completed; zero means never. */
  datatype Stamps = Stamps(request: int, respond: int)

  const NEVER := Stamps(0, 0)

  /** The value of the shared record. */
  datatype Mail = Mail(
    account: Stamps, orders: Stamps, trades: Stamps,
    listenKeyCross: Stamps, accountCross: Stamps, ordersCross: Stamps, tradesCross: Stamps)
  {
    function At(k: Kind): Stamps {
      match k
      case ACCOUNT => account
      case ORDERS => orders
      case TRADES => trades
      case LISTEN_KEY_CROSS => listenKeyCross
      case ACCOUNT_CROSS => accountCross
      case ORDERS_CROSS => ordersCross
      case TRADES_CROSS => tradesCross
    }

    function With(k: Kind, s: Stamps): (m: Mail)
      ensures forall j :: m.At(j) == if j == k then s else At(j)
    {
      match k
      case ACCOUNT => this.(account := s)
      case ORDERS => this.(orders := s)
      case TRADES => this.(trades := s)
      case LISTEN_KEY_CROSS => this.(listenKeyCross := s)
      case ACCOUNT_CROSS => this.(accountCross := s)
      case ORDERS_CROSS => this.(ordersCross := s)
      case TRADES_CROSS => this.(tradesCross := s)
    }

    function Ask(k: Kind, time: int): (m: Mail)
      ensures forall j :: m.At(j) == if j == k then At(j).(request := time) else At(j)
    {
      With(k, At(k).(request := time))
    }

    function Answer(k: Kind, time: int): (m: Mail)
      ensures forall j :: m.At(j) == if j == k then At(j).(respond := time) else At(j)
    {
      With(k, At(k).(respond := time))
    }

    /** The order-entry stream still owes a download of this kind. */
    predicate Due(k: Kind) {
      At(k).respond < At(k).request
    }
  }

  const EMPTY := Mail(NEVER, NEVER, NEVER, NEVER, NEVER, NEVER, NEVER)

  datatype ConnectionStatus = DISCONNECTED | LOGIN_SENT | DOWNLOADING | READY

  /** An HTTP request whose callback is outstanding. */
  datatype Fetch = Fetch(kind: Kind, symbol: string, issued: int)

  /** A callback that has run. */
  datatype Ack = Ack(kind: Kind, issued: int, handled: int)

  /** The shared record as the two streams hold it. */
  class Request {
    var requestAccount: int
    var respondAccount: int
    var requestOrders: int
    var respondOrders: int
    var requestTrades: int
    var respondTrades: int
    var requestListenKeyCross: int
    var respondListenKeyCross: int
    var requestAccountCross: int
    var respondAccountCross: int
    var requestOrdersCross: int
    var respondOrdersCross: int
    var requestTradesCross: int
    var respondTradesCross: int

    function View(): Mail
      reads this
    {
      Mail(
        Stamps(requestAccount, respondAccount),
        Stamps(requestOrders, respondOrders),
        Stamps(requestTrades, respondTrades),
        Stamps(requestListenKeyCross, respondListenKeyCross),
        Stamps(requestAccountCross, respondAccountCross),
        Stamps(requestOrdersCross, respondOrdersCross),
        Stamps(requestTradesCross, respondTradesCross))
    }

    constructor ()
      ensures View() == EMPTY
    {
      requestAccount, respondAccount := 0, 0;
      requestOrders, respondOrders := 0, 0;
      requestTrades, respondTrades := 0, 0;
      requestListenKeyCross, respondListenKeyCross := 0, 0;
      requestAccountCross, respondAccountCross := 0, 0;
      requestOrdersCross, respondOrdersCross := 0, 0;
      requestTradesCross, respondTradesCross := 0, 0;
    }

    method Respond(k: Kind, time: int)
      modifies this
      ensures View() == old(View()).Answer(k, time)
    {
      match k {
        case ACCOUNT => respondAccount := time;
        case ORDERS => respondOrders := time;
        case TRADES => respondTrades := time;
        case LISTEN_KEY_CROSS => respondListenKeyCross := time;
        case ACCOUNT_CROSS => respondAccountCross := time;
        case ORDERS_CROSS => respondOrdersCross := time;
        case TRADES_CROSS => respondTradesCross := time;
      }
    }
  }
}
