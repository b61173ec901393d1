/** The two streams of a margin account. The order-entry stream serves eight downloads, one at a time;
    the drop-copy stream asks for the three cross-margin ones. */
module Margin {
  import opened Wrappers
  import opened Mailbox

  /** What the order-entry stream can be busy with: one of the mailbox downloads, or the poll of
      borrowed amounts that it starts on its own. */
  datatype Slot = Download(kind: Kind) | BORROWED

  datatype MarginFetch = MarginFetch(slot: Slot, issued: int)

  /** A callback that has run. */
  datatype MarginAck = MarginAck(slot: Slot, issued: int, handled: int)

  /** One flag per slot. */
  datatype Flags = Flags(
    account: bool, orders: bool, trades: bool,
    listenKeyCross: bool, accountCross: bool, ordersCross: bool, tradesCross: bool,
    accountCrossOnTimer: bool)
  {
    predicate Has(s: Slot) {
      || (s == Download(ACCOUNT) && account)
      || (s == Download(ORDERS) && orders)
      || (s == Download(TRADES) && trades)
      || (s == Download(LISTEN_KEY_CROSS) && listenKeyCross)
      || (s == Download(ACCOUNT_CROSS) && accountCross)
      || (s == Download(ORDERS_CROSS) && ordersCross)
      || (s == Download(TRADES_CROSS) && tradesCross)
      || (s == BORROWED && accountCrossOnTimer)
    }

    function Set(s: Slot, b: bool): Flags {
      Flags(
        if s == Download(ACCOUNT) then b else account,
        if s == Download(ORDERS) then b else orders,
        if s == Download(TRADES) then b else trades,
        if s == Download(LISTEN_KEY_CROSS) then b else listenKeyCross,
        if s == Download(ACCOUNT_CROSS) then b else accountCross,
        if s == Download(ORDERS_CROSS) then b else ordersCross,
        if s == Download(TRADES_CROSS) then b else tradesCross,
        if s == BORROWED then b else accountCrossOnTimer)
    }

    predicate Downloading() {
      account || orders || trades || listenKeyCross || accountCross || ordersCross || tradesCross || accountCrossOnTimer
    }
  }

  const NO_FLAGS := Flags(false, false, false, false, false, false, false, false)

  lemma SlotCases(s: Slot)
    ensures || s == Download(ACCOUNT) || s == Download(ORDERS) || s == Download(TRADES)
            || s == Download(LISTEN_KEY_CROSS) || s == Download(ACCOUNT_CROSS) || s == Download(ORDERS_CROSS)
            || s == Download(TRADES_CROSS) || s == BORROWED
  {
    if s.Download? {
      match s.kind
      case ACCOUNT =>
      case ORDERS =>
      case TRADES =>
      case LISTEN_KEY_CROSS =>
      case ACCOUNT_CROSS =>
      case ORDERS_CROSS =>
      case TRADES_CROSS =>
    }
  }

  datatype Config = Config(symbols: seq<string>, pollBorrowed: nat)

  datatype Worker = Worker(
    status: ConnectionStatus, flags: Flags, nextPollBorrowed: int, hasListenKeyCross: bool, inFlight: seq<MarginFetch>, acks: seq<MarginAck>)

  /** The kind served next: spot before cross, in the order of the timer's tests. */
  function FirstDue(mail: Mail): Option<Kind> {
    if mail.Due(ACCOUNT) then Some(ACCOUNT)
    else if mail.Due(ORDERS) then Some(ORDERS)
    else if mail.Due(TRADES) then Some(TRADES)
    else if mail.Due(LISTEN_KEY_CROSS) then Some(LISTEN_KEY_CROSS)
    else if mail.Due(ACCOUNT_CROSS) then Some(ACCOUNT_CROSS)
    else if mail.Due(ORDERS_CROSS) then Some(ORDERS_CROSS)
    else if mail.Due(TRADES_CROSS) then Some(TRADES_CROSS)
    else None
  }

  function Repeat(fetch: MarginFetch, n: nat): seq<MarginFetch> {
    if n == 0 then [] else Repeat(fetch, n - 1) + [fetch]
  }

  /** Trades take one request per symbol, everything else one. */
  function Start(config: Config, w: Worker, s: Slot, time: int): Worker {
    var n := if s == Download(TRADES) || s == Download(TRADES_CROSS) then |config.symbols| else 1;
    w.(flags := w.flags.Set(s, true), inFlight := w.inFlight + Repeat(MarginFetch(s, time), n))
  }

  /** None stands for the end of the process: there is no request for the spot account or orders of a
      margin account. */
  function WorkerTimer(config: Config, mail: Mail, w: Worker, linkUp: bool, time: int, timerNow: int): Option<Worker> {
    if linkUp && w.status == READY && !w.flags.Downloading() then
      match FirstDue(mail)
      case Some(ACCOUNT) => None
      case Some(ORDERS) => None
      case Some(k) => Some(Start(config, w, Download(k), time))
      case None =>
        if config.pollBorrowed != 0 && (w.nextPollBorrowed < timerNow || w.nextPollBorrowed == 0)
        then Some(Start(config, w, BORROWED, time).(nextPollBorrowed := timerNow + config.pollBorrowed))
        else Some(w)
    else Some(w)
  }

  function WorkerDisconnected(w: Worker): Worker {
    w.(status := DISCONNECTED, flags := NO_FLAGS)
  }

  /** On connecting, the stream asks for a listen key unless it has one; no flag guards this request. */
  function WorkerConnected(w: Worker, time: int): Worker {
    if w.hasListenKeyCross then w else w.(inFlight := w.inFlight + [MarginFetch(Download(LISTEN_KEY_CROSS), time)])
  }

  /** The stamp that a callback sets: the poll of borrowed amounts stamps the cross account, too. */
  function StampedKind(s: Slot): Kind {
    if s == BORROWED then ACCOUNT_CROSS else s.kind
  }

  /** The callback of the i-th outstanding request; `ok` tells whether it carried a usable answer. */
  function WorkerAck(w: Worker, i: nat, ok: bool, time: int): Worker
    requires i < |w.inFlight|
  {
    var s := w.inFlight[i].slot;
    w.(flags := w.flags.Set(s, false),
       hasListenKeyCross := w.hasListenKeyCross || (ok && s == Download(LISTEN_KEY_CROSS)),
       inFlight := w.inFlight[..i] + w.inFlight[i + 1..],
       acks := w.acks + [MarginAck(s, w.inFlight[i].issued, time)])
  }

  class OrderEntryMargin {
    const config: Config
    const request: Request
    var connectionStatus: ConnectionStatus
    var downloads: Flags
    var nextPollBorrowed: int
    var hasListenKeyCross: bool
    var outstanding: seq<MarginFetch>
    ghost var handled: seq<MarginAck>

    ghost function View(): Worker
      reads this
    {
      Worker(connectionStatus, downloads, nextPollBorrowed, hasListenKeyCross, outstanding, handled)
    }

    constructor (config: Config, request: Request)
      ensures this.config == config && this.request == request
      ensures View() == Worker(DISCONNECTED, NO_FLAGS, 0, false, [], [])
    {
      this.config, this.request := config, request;
      connectionStatus := DISCONNECTED;
      downloads := NO_FLAGS;
      nextPollBorrowed, hasListenKeyCross, outstanding, handled := 0, false, [], [];
    }

    /** The result tells whether the process ends. */
    method OnTimer(linkUp: bool, now: int, timerNow: int) returns (fatal: bool)
      modifies this
      ensures var next := WorkerTimer(config, request.View(), old(View()), linkUp, now, timerNow);
              fatal == next.None? && View() == if fatal then old(View()) else next.value
    {
      hide Flags.Has, Flags.Set, Repeat;
      if !linkUp || connectionStatus != READY || downloads.Downloading() {
        return false;
      }
      if request.respondAccount < request.requestAccount {
        return true;
      }
      if request.respondOrders < request.requestOrders {
        return true;
      }
      if request.respondTrades < request.requestTrades {
        StartDownload(Download(TRADES), now);
      }
      if !downloads.Downloading() && request.respondListenKeyCross < request.requestListenKeyCross {
        StartDownload(Download(LISTEN_KEY_CROSS), now);
      }
      if !downloads.Downloading() && request.respondAccountCross < request.requestAccountCross {
        StartDownload(Download(ACCOUNT_CROSS), now);
      }
      if !downloads.Downloading() && request.respondOrdersCross < request.requestOrdersCross {
        StartDownload(Download(ORDERS_CROSS), now);
      }
      if !downloads.Downloading() && request.respondTradesCross < request.requestTradesCross {
        StartDownload(Download(TRADES_CROSS), now);
      }
      if !downloads.Downloading() && config.pollBorrowed != 0 && (nextPollBorrowed < timerNow || nextPollBorrowed == 0) {
        StartDownload(BORROWED, now);
        nextPollBorrowed := timerNow + config.pollBorrowed;
      }
      return false;
    }

    method StartDownload(slot: Slot, now: int)
      modifies this`outstanding, this`downloads
      ensures View() == Start(config, old(View()), slot, now) && downloads.Downloading()
    {
      if slot == Download(TRADES) || slot == Download(TRADES_CROSS) {
        for i := 0 to |config.symbols|
          invariant outstanding == old(outstanding) + Repeat(MarginFetch(slot, now), i)
          invariant downloads == old(downloads)
        {
          outstanding := outstanding + [MarginFetch(slot, now)];
        }
      } else {
        assert Repeat(MarginFetch(slot, now), 1) == [MarginFetch(slot, now)];
        outstanding := outstanding + [MarginFetch(slot, now)];
      }
      SlotCases(slot);
      downloads := downloads.Set(slot, true);
    }

    method OnConnected(now: int)
      modifies this`outstanding
      ensures View() == WorkerConnected(old(View()), now)
    {
      if !hasListenKeyCross {
        outstanding := outstanding + [MarginFetch(Download(LISTEN_KEY_CROSS), now)];
      }
    }

    method OnConnectionStatus(status: ConnectionStatus)
      modifies this`connectionStatus
      ensures View() == old(View()).(status := status)
    {
      connectionStatus := status;
    }

    method OnDisconnected()
      modifies this
      ensures View() == WorkerDisconnected(old(View()))
    {
      connectionStatus := DISCONNECTED;
      downloads := NO_FLAGS;
    }

    /** The result tells whether the callback carries a listen key for the controller. */
    method OnAck(i: nat, ok: bool, now: int) returns (listenKey: bool)
      requires i < |outstanding|
      modifies this, request
      ensures View() == WorkerAck(old(View()), i, ok, now)
      ensures request.View() == old(request.View()).Answer(StampedKind(old(outstanding)[i].slot), now)
      ensures listenKey == (ok && old(outstanding)[i].slot == Download(LISTEN_KEY_CROSS))
    {
      var slot := outstanding[i].slot;
      handled := handled + [MarginAck(slot, outstanding[i].issued, now)];
      outstanding := outstanding[..i] + outstanding[i + 1..];
      listenKey := ok && slot == Download(LISTEN_KEY_CROSS);
      hasListenKeyCross := hasListenKeyCross || listenKey;
      request.Respond(StampedKind(slot), now);
      downloads := downloads.Set(slot, false);
    }
  }

  // --- drop copy

  datatype Stage = UNDEFINED | SESSION_LOGON | USER_DATA_STREAM_SUBSCRIBE | ACCOUNT_STAGE | ORDERS_STAGE | DONE

  /** `entered` is the time at which the current account or orders stage began. */
  datatype Drop = Drop(status: ConnectionStatus, stage: Stage, listenToken: string, downloadListenToken: bool, entered: int)

  datatype Desk = Desk(mail: Mail, drop: Drop)

  const NEW_DROP := Drop(DISCONNECTED, UNDEFINED, "", false, 0)

  function Begin(desk: Desk): Desk {
    desk.(drop := desk.drop.(status := LOGIN_SENT, stage := SESSION_LOGON))
  }

  function LoggedOn(desk: Desk): Desk {
    if desk.drop.stage == SESSION_LOGON then desk.(drop := desk.drop.(status := DOWNLOADING, stage := USER_DATA_STREAM_SUBSCRIBE))
    else desk
  }

  function Subscribed(desk: Desk, time: int): Desk {
    if desk.drop.stage == USER_DATA_STREAM_SUBSCRIBE then
      Desk(desk.mail.Ask(ACCOUNT_CROSS, time), desk.drop.(status := DOWNLOADING, stage := ACCOUNT_STAGE, entered := time))
    else desk
  }

  function CheckListenKey(desk: Desk): Desk {
    if desk.drop.downloadListenToken && desk.mail.listenKeyCross.request < desk.mail.listenKeyCross.respond then
      desk.(drop := desk.drop.(downloadListenToken := false))
    else desk
  }

  function CheckAccount(desk: Desk, time: int): Desk {
    if desk.drop.stage == ACCOUNT_STAGE && desk.mail.accountCross.request < desk.mail.accountCross.respond then
      Desk(desk.mail.Ask(ORDERS_CROSS, time), desk.drop.(status := DOWNLOADING, stage := ORDERS_STAGE, entered := time))
    else desk
  }

  function CheckOrders(desk: Desk): Desk {
    if desk.drop.stage == ORDERS_STAGE && desk.mail.ordersCross.request < desk.mail.ordersCross.respond then
      desk.(drop := desk.drop.(status := READY, stage := DONE))
    else desk
  }

  function DropTimer(desk: Desk, linkUp: bool, time: int): Desk {
    if linkUp && desk.drop.status == READY then CheckOrders(CheckAccount(CheckListenKey(desk), time)) else desk
  }

  /** The exchange has ended the event stream: a new listen token is asked for, once. */
  function EventStreamTerminated(desk: Desk, time: int): Desk {
    if desk.drop.listenToken == "" then desk
    else Desk(desk.mail.Ask(LISTEN_KEY_CROSS, time), desk.drop.(listenToken := "", downloadListenToken := true))
  }

  class DropCopyMargin {
    const request: Request
    var connectionStatus: ConnectionStatus
    var state: Stage
    var listenToken: string
    var downloadListenToken: bool
    ghost var entered: int

    ghost function View(): Desk
      reads this, request
    {
      Desk(request.View(), Drop(connectionStatus, state, listenToken, downloadListenToken, entered))
    }

    constructor (request: Request, listenToken: string)
      ensures this.request == request && View() == Desk(request.View(), NEW_DROP.(listenToken := listenToken))
    {
      this.request := request;
      this.listenToken := listenToken;
      connectionStatus, state, downloadListenToken, entered := DISCONNECTED, UNDEFINED, false, 0;
    }

    method OnListenKeyUpdate(listenKey: string)
      modifies this`listenToken
      ensures View() == old(View()).(drop := old(View()).drop.(listenToken := listenKey))
    {
      listenToken := listenKey;
    }

    method OnReady()
      modifies this
      ensures View() == Begin(old(View()))
    {
      state := SESSION_LOGON;
      connectionStatus := LOGIN_SENT;
    }

    method OnSessionLogon(status: int)
      modifies this
      ensures View() == if status == 200 then LoggedOn(old(View())) else old(View())
    {
      if status == 200 && state == SESSION_LOGON {
        state := USER_DATA_STREAM_SUBSCRIBE;
        connectionStatus := DOWNLOADING;
      }
    }

    method OnUserDataStreamSubscribe(status: int, now: int)
      modifies this, request
      ensures View() == if status == 200 then Subscribed(old(View()), now) else old(View())
    {
      if status == 200 && state == USER_DATA_STREAM_SUBSCRIBE {
        state, entered := ACCOUNT_STAGE, now;
        request.requestAccountCross := now;
        connectionStatus := DOWNLOADING;
      }
    }

    method OnEventStreamTerminated(now: int)
      modifies this, request
      ensures View() == EventStreamTerminated(old(View()), now)
    {
      if listenToken == "" {
        return;
      }
      listenToken := "";
      request.requestListenKeyCross := now;
      downloadListenToken := true;
    }

    method OnTimer(linkUp: bool, now: int)
      modifies this, request
      ensures View() == DropTimer(old(View()), linkUp, now)
    {
      if linkUp {
        if connectionStatus == READY {
          CheckResponseListenKey();
          CheckResponseAccount(now);
          CheckResponseOrders();
        }
      }
    }

    method CheckResponseListenKey()
      modifies this
      ensures View() == CheckListenKey(old(View()))
    {
      if downloadListenToken && request.requestListenKeyCross < request.respondListenKeyCross {
        downloadListenToken := false;
      }
    }

    method CheckResponseAccount(now: int)
      modifies this, request
      ensures View() == CheckAccount(old(View()), now)
    {
      if state != ACCOUNT_STAGE {
        return;
      }
      if request.requestAccountCross < request.respondAccountCross {
        state, entered := ORDERS_STAGE, now;
        request.requestOrdersCross := now;
        connectionStatus := DOWNLOADING;
      }
    }

    method CheckResponseOrders()
      modifies this
      ensures View() == CheckOrders(old(View()))
    {
      if state != ORDERS_STAGE {
        return;
      }
      if request.requestOrdersCross < request.respondOrdersCross {
        state := DONE;
        connectionStatus := READY;
      }
    }

    method OnDisconnected()
      modifies this
      ensures View() == old(View()).(drop := old(View()).drop.(status := DISCONNECTED, stage := UNDEFINED))
    {
      connectionStatus := DISCONNECTED;
      state := UNDEFINED;
    }
  }
}
