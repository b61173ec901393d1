/** The two streams of a portfolio-margin account. The order-entry stream polls the mailbox on its
    timer and performs one download at a time; the drop-copy stream walks through its download
    stages, asking for one kind of data per stage. */
module Portfolio {
  import opened Wrappers
  import opened Mailbox

  datatype Config = Config(master: bool, tradesLookback: nat, symbols: seq<string>)

  predicate TradesEnabled(config: Config) {
    config.tradesLookback != 0 && config.symbols != []
  }

  // --- order entry, as a function of its state and the mailbox

  /** Which downloads the worker has started. */
  datatype Flags = Flags(account: bool, orders: bool, trades: bool) {
    predicate Has(k: Kind) {
      (k == ACCOUNT && account) || (k == ORDERS && orders) || (k == TRADES && trades)
    }

    predicate Downloading() {
      account || orders || trades
    }

    function Raise(k: Kind): (f: Flags)
      ensures forall j :: f.Has(j) <==> Has(j) || (j == k && k in SPOT)
    {
      Flags(account || k == ACCOUNT, orders || k == ORDERS, trades || k == TRADES)
    }

    function Clear(k: Kind): (f: Flags)
      ensures forall j :: f.Has(j) <==> Has(j) && j != k
    {
      Flags(account && k != ACCOUNT, orders && k != ORDERS, trades && k != TRADES)
    }
  }

  const NO_FLAGS := Flags(false, false, false)

  datatype Worker = Worker(status: ConnectionStatus, flags: Flags, inFlight: seq<Fetch>, acks: seq<Ack>)

  /** The kind served next: account before orders before trades. */
  function FirstDue(mail: Mail): Option<Kind> {
    if mail.Due(ACCOUNT) then Some(ACCOUNT)
    else if mail.Due(ORDERS) then Some(ORDERS)
    else if mail.Due(TRADES) then Some(TRADES)
    else None
  }

  function TradeFetches(symbols: seq<string>, time: int): seq<Fetch> {
    if symbols == [] then []
    else TradeFetches(symbols[..|symbols| - 1], time) + [Fetch(TRADES, symbols[|symbols| - 1], time)]
  }

  /** The requests that a download of one kind takes: one, or for trades one per symbol. */
  function Fetches(config: Config, k: Kind, time: int): seq<Fetch> {
    if k == TRADES then TradeFetches(config.symbols, time) else [Fetch(k, "", time)]
  }

  function WorkerTimer(config: Config, mail: Mail, w: Worker, linkUp: bool, time: int): Worker {
    if linkUp && w.status == READY && config.master && !w.flags.Downloading() then
      match FirstDue(mail)
      case None => w
      case Some(k) => w.(flags := w.flags.Raise(k), inFlight := w.inFlight + Fetches(config, k, time))
    else w
  }

  function WorkerDisconnected(w: Worker): Worker {
    w.(status := DISCONNECTED, flags := NO_FLAGS)
  }

  function Remove<T>(s: seq<T>, i: nat): seq<T>
    requires i < |s|
  {
    s[..i] + s[i + 1..]
  }

  /** The callback of the i-th outstanding request. Successful or not, it counts as the completion of
      a download of its kind. */
  function WorkerAck(w: Worker, i: nat, time: int): Worker
    requires i < |w.inFlight|
  {
    var fetch := w.inFlight[i];
    w.(flags := w.flags.Clear(fetch.kind),
       inFlight := Remove(w.inFlight, i),
       acks := w.acks + [Ack(fetch.kind, fetch.issued, time)])
  }

  // --- drop copy

  datatype Stage = UNDEFINED | WAITING(kind: Kind) | DONE

  /** `begun` and `entered` are the times at which the current download and its current stage began. */
  datatype Drop = Drop(status: ConnectionStatus, stage: Stage, begun: int, entered: int)

  /** The drop copy together with the mailbox it writes to. */
  datatype Desk = Desk(mail: Mail, drop: Drop)

  function Enter(desk: Desk, k: Kind, time: int): Desk {
    Desk(desk.mail.Ask(k, time), desk.drop.(status := DOWNLOADING, stage := WAITING(k), entered := time))
  }

  function Complete(desk: Desk): Desk {
    desk.(drop := desk.drop.(status := READY, stage := DONE))
  }

  function Begin(desk: Desk, time: int): Desk {
    Enter(desk.(drop := desk.drop.(begun := time)), ACCOUNT, time)
  }

  /** The stage after the download of kind k. */
  function Advance(config: Config, desk: Desk, k: Kind, time: int): Desk {
    if k == ACCOUNT then Enter(desk, ORDERS, time)
    else if k == ORDERS && TradesEnabled(config) then Enter(desk, TRADES, time)
    else Complete(desk)
  }

  function Check(config: Config, desk: Desk, k: Kind, time: int): Desk {
    if desk.drop.stage == WAITING(k) && desk.mail.At(k).request < desk.mail.At(k).respond
    then Advance(config, desk, k, time)
    else desk
  }

  /** The checks run only while the stream is ready. */
  function DropTimer(config: Config, desk: Desk, linkUp: bool, time: int): Desk {
    if linkUp && desk.drop.status == READY then
      Check(config, Check(config, Check(config, desk, ACCOUNT, time), ORDERS, time), TRADES, time)
    else desk
  }

  function DropDisconnected(drop: Drop): Drop {
    drop.(status := DISCONNECTED, stage := UNDEFINED)
  }

  // --- the streams

  class OrderEntryPortfolio {
    const config: Config
    const request: Request
    var connectionStatus: ConnectionStatus
    var downloadAccount: bool
    var downloadOrders: bool
    var downloadTrades: bool
    var outstanding: seq<Fetch>
    ghost var handled: seq<Ack>

    ghost function View(): Worker
      reads this
    {
      Worker(
        connectionStatus,
        Flags(downloadAccount, downloadOrders, downloadTrades),
        outstanding,
        handled)
    }

    constructor (config: Config, request: Request)
      ensures this.config == config && this.request == request
      ensures View() == Worker(DISCONNECTED, NO_FLAGS, [], [])
    {
      this.config, this.request := config, request;
      connectionStatus := DISCONNECTED;
      downloadAccount, downloadOrders, downloadTrades := false, false, false;
      outstanding, handled := [], [];
    }

    predicate Downloading()
      reads this
    {
      downloadAccount || downloadOrders || downloadTrades
    }

    method OnTimer(linkUp: bool, now: int)
      modifies this
      ensures View() == WorkerTimer(config, request.View(), old(View()), linkUp, now)
    {
      if linkUp {
        if connectionStatus == READY {
          if config.master && !Downloading() {
            if !Downloading() && request.respondAccount < request.requestAccount {
              outstanding := outstanding + [Fetch(ACCOUNT, "", now)];
              downloadAccount := true;
            }
            if !Downloading() && request.respondOrders < request.requestOrders {
              outstanding := outstanding + [Fetch(ORDERS, "", now)];
              downloadOrders := true;
            }
            if !Downloading() && request.respondTrades < request.requestTrades {
              GetTrades(now);
              downloadTrades := true;
            }
          }
        }
      }
    }

    method GetTrades(now: int)
      modifies this`outstanding
      ensures outstanding == old(outstanding) + TradeFetches(config.symbols, now)
    {
      for i := 0 to |config.symbols|
        invariant outstanding == old(outstanding) + TradeFetches(config.symbols[..i], now)
      {
        assert config.symbols[..i + 1][..i] == config.symbols[..i];
        outstanding := outstanding + [Fetch(TRADES, config.symbols[i], now)];
      }
      assert config.symbols[..|config.symbols|] == config.symbols;
    }

    method OnConnectionStatus(status: ConnectionStatus)
      modifies this`connectionStatus
      ensures View() == old(View()).(status := status)
    {
      connectionStatus := status;
    }

    method OnDisconnected()
      modifies this
      ensures View() == WorkerDisconnected(old(View()))
    {
      connectionStatus := DISCONNECTED;
      downloadAccount := false;
      downloadOrders := false;
      downloadTrades := false;
    }

    /** The callback of a download; how the response is interpreted is a matter of ProcessResponse. */
    method OnAck(i: nat, now: int)
      requires i < |outstanding| && outstanding[i].kind in SPOT
      modifies this, request
      ensures View() == WorkerAck(old(View()), i, now)
      ensures request.View() == old(request.View()).Answer(old(outstanding)[i].kind, now)
    {
      var fetch := outstanding[i];
      outstanding := outstanding[..i] + outstanding[i + 1..];
      handled := handled + [Ack(fetch.kind, fetch.issued, now)];
      request.Respond(fetch.kind, now);
      if fetch.kind == ACCOUNT {
        downloadAccount := false;
      } else if fetch.kind == ORDERS {
        downloadOrders := false;
      } else {
        downloadTrades := false;
      }
    }
  }

  class DropCopyPortfolio {
    const config: Config
    const request: Request
    var connectionStatus: ConnectionStatus
    var state: Stage
    ghost var begun: int
    ghost var entered: int

    ghost function View(): Desk
      reads this, request
    {
      Desk(request.View(), Drop(connectionStatus, state, begun, entered))
    }

    constructor (config: Config, request: Request)
      ensures this.config == config && this.request == request
      ensures View() == Desk(request.View(), Drop(DISCONNECTED, UNDEFINED, 0, 0))
    {
      this.config, this.request := config, request;
      connectionStatus, state, begun, entered := DISCONNECTED, UNDEFINED, 0, 0;
    }

    method OnReady(now: int)
      modifies this, request
      ensures View() == Begin(old(View()), now)
    {
      begun := now;
      var _ := Download(WAITING(ACCOUNT), now);
    }

    /** Enters a stage; the result tells how many responses the stage waits for. */
    method Download(stage: Stage, now: int) returns (pending: nat)
      requires stage.WAITING? ==> stage.kind in SPOT
      requires stage != UNDEFINED
      modifies this, request
      ensures pending == (if stage == DONE || (stage == WAITING(TRADES) && !TradesEnabled(config)) then 0 else 1)
      ensures View() == if stage == DONE then Complete(old(View()))
                        else if pending == 0 then old(View())
                        else Enter(old(View()), stage.kind, now)
    {
      if stage == DONE {
        connectionStatus, state := READY, stage;
        return 0;
      }
      if stage.kind == TRADES && (config.tradesLookback == 0 || config.symbols == []) {
        return 0;
      }
      connectionStatus, state, entered := DOWNLOADING, stage, now;
      if stage.kind == ACCOUNT {
        request.requestAccount := now;
      } else if stage.kind == ORDERS {
        request.requestOrders := now;
      } else {
        request.requestTrades := now;
      }
      return 1;
    }

    /** The download machine moves on to the next stage that waits for something. */
    method Proceed(stage: Stage, now: int)
      requires stage.WAITING? && stage.kind in SPOT
      modifies this, request
      ensures View() == Advance(config, old(View()), stage.kind, now)
    {
      if stage.kind == ACCOUNT {
        var _ := Download(WAITING(ORDERS), now);
      } else {
        var pending := 0;
        if stage.kind == ORDERS {
          pending := Download(WAITING(TRADES), now);
        }
        if pending == 0 {
          var _ := Download(DONE, now);
        }
      }
    }

    method OnTimer(linkUp: bool, now: int)
      modifies this, request
      ensures View() == DropTimer(config, old(View()), linkUp, now)
    {
      if linkUp {
        if connectionStatus == READY {
          CheckResponse(ACCOUNT, now);
          CheckResponse(ORDERS, now);
          CheckResponse(TRADES, now);
        }
      }
    }

    method CheckResponse(kind: Kind, now: int)
      requires kind in SPOT
      modifies this, request
      ensures View() == Check(config, old(View()), kind, now)
    {
      if state != WAITING(kind) {
        return;
      }
      var stamps := request.View().At(kind);
      if stamps.request < stamps.respond {
        Proceed(WAITING(kind), now);
      }
    }

    method OnDisconnected()
      modifies this
      ensures View() == old(View()).(drop := DropDisconnected(old(View()).drop))
    {
      connectionStatus := DISCONNECTED;
      state := UNDEFINED;
    }
  }
}
