/** Runs of a portfolio account, written down event by event: one in which a stage begins while an old
    request is out, and one in which direct checks complete the download. */
module PortfolioScript {
  import opened Wrappers
  import opened Mailbox
  import opened Portfolio
  import opened PortfolioRun

  ghost predicate Leads(c: Config, w: World, events: seq<Timed>, t: World) {
    Feasible(c, w, events) && Run(c, w, events) == t
  }

  ghost predicate Goes(c: Config, w: World, e: Timed, next: World) {
    Enabled(w, e) && Step(c, w, e) == next
  }

  lemma Stay(c: Config, w: World)
    ensures Leads(c, w, [], w)
  {
  }

  lemma Play(c: Config, w: World, e: Timed, next: World, rest: seq<Timed>, t: World)
    requires Goes(c, w, e, next) && Leads(c, next, rest, t)
    ensures Leads(c, w, [e] + rest, t)
  {
    hide Step;
    assert ([e] + rest)[1..] == rest;
  }

  // --- states on the way

  function At(now: int, mail: Mail, stage: Stage, status: ConnectionStatus, begun: int, entered: int, w: Worker): World {
    World(now, Desk(mail, Drop(status, stage, begun, entered)), w)
  }

  const IDLE := Worker(READY, NO_FLAGS, [], [])

  function Busy(k: Kind, out: seq<Fetch>, acks: seq<Ack>): Worker {
    Worker(READY, NO_FLAGS.Raise(k), out, acks)
  }

  const ASKED := EMPTY.(account := Stamps(1, 0))
  const OLD := Fetch(ACCOUNT, "", 3)
  const FETCHING := At(3, ASKED, WAITING(ACCOUNT), DOWNLOADING, 1, 1, Busy(ACCOUNT, [OLD], []))

  lemma Begins(c: Config)
    ensures var begun := At(1, ASKED, WAITING(ACCOUNT), DOWNLOADING, 1, 1, IDLE.(status := DISCONNECTED));
            && Goes(c, Initial(), Timed(DropReady, 1), begun)
            && Goes(c, begun, Timed(WorkerStatus(READY), 2), At(2, ASKED, WAITING(ACCOUNT), DOWNLOADING, 1, 1, IDLE))
  {
  }

  lemma StartsAccount(c: Config)
    requires c.master
    ensures Goes(c, At(2, ASKED, WAITING(ACCOUNT), DOWNLOADING, 1, 1, IDLE), Timed(WorkerTick(true), 3), FETCHING)
  {
  }

  function Intro(rest: seq<Timed>): seq<Timed> {
    [Timed(DropReady, 1)] + ([Timed(WorkerStatus(READY), 2)] + ([Timed(WorkerTick(true), 3)] + rest))
  }

  lemma PlayIntro(c: Config, rest: seq<Timed>, t: World)
    requires c.master && Leads(c, FETCHING, rest, t)
    ensures Leads(c, Initial(), Intro(rest), t)
  {
    Begins(c);
    StartsAccount(c);
    hide Goes, Leads, At, Initial;
    Play(c, At(2, ASKED, WAITING(ACCOUNT), DOWNLOADING, 1, 1, IDLE), Timed(WorkerTick(true), 3), FETCHING, rest, t);
    Play(c, At(1, ASKED, WAITING(ACCOUNT), DOWNLOADING, 1, 1, IDLE.(status := DISCONNECTED)), Timed(WorkerStatus(READY), 2),
         At(2, ASKED, WAITING(ACCOUNT), DOWNLOADING, 1, 1, IDLE), [Timed(WorkerTick(true), 3)] + rest, t);
    Play(c, Initial(), Timed(DropReady, 1), At(1, ASKED, WAITING(ACCOUNT), DOWNLOADING, 1, 1, IDLE.(status := DISCONNECTED)),
         [Timed(WorkerStatus(READY), 2)] + ([Timed(WorkerTick(true), 3)] + rest), t);
  }

  // --- a stage that begins while an old request is out

  const STALE := At(5, EMPTY.(account := Stamps(5, 0)), WAITING(ACCOUNT), DOWNLOADING, 5, 5, Busy(ACCOUNT, [OLD], []))

  lemma DropsAndReturns(c: Config)
    ensures var lost := At(4, ASKED, UNDEFINED, DISCONNECTED, 1, 1, Busy(ACCOUNT, [OLD], []));
            Goes(c, FETCHING, Timed(DropLost, 4), lost) && Goes(c, lost, Timed(DropReady, 5), STALE)
  {
  }

  /** From the very beginning: the account is asked for and its download started, the drop copy is lost and
      comes back. The stage it then enters can end on the answer to the request from before. */
  lemma StaleRun(c: Config)
    requires c.master
    ensures var events := Intro([Timed(DropLost, 4)] + ([Timed(DropReady, 5)] + []));
            Feasible(c, Initial(), events) && Run(c, Initial(), events) == STALE
    ensures STALE.desk.drop.stage == WAITING(ACCOUNT) && STALE.now == STALE.desk.drop.entered
    ensures !AlwaysFresh(c, STALE)
  {
    DropsAndReturns(c);
    Stay(c, STALE);
    assert OLD in STALE.worker.inFlight;
    hide Goes, At, Initial, Intro, AlwaysFresh, Safe;
    Play(c, At(4, ASKED, UNDEFINED, DISCONNECTED, 1, 1, Busy(ACCOUNT, [OLD], [])), Timed(DropReady, 5), STALE, [], STALE);
    Play(c, FETCHING, Timed(DropLost, 4), At(4, ASKED, UNDEFINED, DISCONNECTED, 1, 1, Busy(ACCOUNT, [OLD], [])),
         [Timed(DropReady, 5)] + [], STALE);
    PlayIntro(c, [Timed(DropLost, 4)] + ([Timed(DropReady, 5)] + []), STALE);
    InitiallySafe(c);
    RunSafe(c, Initial(), Intro([Timed(DropLost, 4)] + ([Timed(DropReady, 5)] + [])));
    StaleIs();
    FreshnessCondition(c, STALE);
  }

  lemma StaleIs()
    ensures STALE.desk.drop.stage == WAITING(ACCOUNT) && STALE.now == STALE.desk.drop.entered && OLD in STALE.worker.inFlight
  {
  }

  // --- a download that direct checks complete

  const A := Ack(ACCOUNT, 3, 4)
  const O := Ack(ORDERS, 6, 7)
  const HAS_ACCOUNT := EMPTY.(account := Stamps(1, 4))
  const HAS_ORDERS := HAS_ACCOUNT.(orders := Stamps(5, 7))

  function AccountDone(): World {
    At(5, HAS_ACCOUNT.(orders := Stamps(5, 0)), WAITING(ORDERS), DOWNLOADING, 1, 5, IDLE.(acks := [A]))
  }

  function OrdersHere(): World {
    At(7, HAS_ORDERS, WAITING(ORDERS), DOWNLOADING, 1, 5, IDLE.(acks := [A, O]))
  }

  function Done(now: int, mail: Mail, entered: int, w: Worker): World {
    At(now, mail, Stage.DONE, READY, 1, entered, w)
  }

  lemma AccountSteps(c: Config)
    requires c.master
    ensures Goes(c, FETCHING, Timed(FetchAck(0), 4), At(4, HAS_ACCOUNT, WAITING(ACCOUNT), DOWNLOADING, 1, 1, IDLE.(acks := [A])))
    ensures Goes(c, At(4, HAS_ACCOUNT, WAITING(ACCOUNT), DOWNLOADING, 1, 1, IDLE.(acks := [A])), Timed(DropCheck(ACCOUNT), 5), AccountDone())
  {
  }

  lemma OrdersSteps(c: Config)
    requires c.master
    ensures var fetching := At(6, HAS_ACCOUNT.(orders := Stamps(5, 0)), WAITING(ORDERS), DOWNLOADING, 1, 5, Busy(ORDERS, [Fetch(ORDERS, "", 6)], [A]));
            && Goes(c, AccountDone(), Timed(WorkerTick(true), 6), fetching)
            && Goes(c, fetching, Timed(FetchAck(0), 7), OrdersHere())
  {
  }

  function Middle(rest: seq<Timed>): seq<Timed> {
    [Timed(FetchAck(0), 4)] + ([Timed(DropCheck(ACCOUNT), 5)] + ([Timed(WorkerTick(true), 6)] + ([Timed(FetchAck(0), 7)] + rest)))
  }

  lemma PlayMiddle(c: Config, rest: seq<Timed>, t: World)
    requires c.master && Leads(c, OrdersHere(), rest, t)
    ensures Leads(c, FETCHING, Middle(rest), t)
  {
    AccountSteps(c);
    OrdersSteps(c);
    hide Goes, Leads, At, AccountDone, OrdersHere, Busy;
    var acknowledged := At(4, HAS_ACCOUNT, WAITING(ACCOUNT), DOWNLOADING, 1, 1, IDLE.(acks := [A]));
    var fetching := At(6, HAS_ACCOUNT.(orders := Stamps(5, 0)), WAITING(ORDERS), DOWNLOADING, 1, 5, Busy(ORDERS, [Fetch(ORDERS, "", 6)], [A]));
    Play(c, fetching, Timed(FetchAck(0), 7), OrdersHere(), rest, t);
    Play(c, AccountDone(), Timed(WorkerTick(true), 6), fetching, [Timed(FetchAck(0), 7)] + rest, t);
    Play(c, acknowledged, Timed(DropCheck(ACCOUNT), 5), AccountDone(), [Timed(WorkerTick(true), 6)] + ([Timed(FetchAck(0), 7)] + rest), t);
    Play(c, FETCHING, Timed(FetchAck(0), 4), acknowledged,
         [Timed(DropCheck(ACCOUNT), 5)] + ([Timed(WorkerTick(true), 6)] + ([Timed(FetchAck(0), 7)] + rest)), t);
  }

  lemma WithoutTrades(c: Config)
    requires !TradesEnabled(c)
    ensures Goes(c, OrdersHere(), Timed(DropCheck(ORDERS), 8), Done(8, HAS_ORDERS, 5, IDLE.(acks := [A, O])))
  {
  }

  function TradesAsked(w: Worker, now: int): World {
    At(now, HAS_ORDERS.(trades := Stamps(8, 0)), WAITING(TRADES), DOWNLOADING, 1, 8, w)
  }

  lemma WithTrades(c: Config)
    requires c.master && TradesEnabled(c)
    ensures Goes(c, OrdersHere(), Timed(DropCheck(ORDERS), 8), TradesAsked(IDLE.(acks := [A, O]), 8))
    ensures Goes(c, TradesAsked(IDLE.(acks := [A, O]), 8), Timed(WorkerTick(true), 9),
                 TradesAsked(Busy(TRADES, TradeFetches(c.symbols, 9), [A, O]), 9))
  {
    assert [] + TradeFetches(c.symbols, 9) == TradeFetches(c.symbols, 9);
  }

  function TradesWorker(c: Config): Worker
    requires c.symbols != []
  {
    TradeFetchesAre(c.symbols, 9);
    Worker(READY, NO_FLAGS, Remove(TradeFetches(c.symbols, 9), 0), [A, O] + [Ack(TRADES, 9, 10)])
  }

  lemma TradesArrive(c: Config)
    requires TradesEnabled(c)
    ensures var here := At(10, HAS_ORDERS.(trades := Stamps(8, 10)), WAITING(TRADES), DOWNLOADING, 1, 8, TradesWorker(c));
            && Goes(c, TradesAsked(Busy(TRADES, TradeFetches(c.symbols, 9), [A, O]), 9), Timed(FetchAck(0), 10), here)
            && Goes(c, here, Timed(DropCheck(TRADES), 11), Done(11, HAS_ORDERS.(trades := Stamps(8, 10)), 8, TradesWorker(c)))
  {
    TradeFetchesAre(c.symbols, 9);
    assert TradeFetches(c.symbols, 9)[0] in TradeFetches(c.symbols, 9);
    hide TradeFetches;
  }

  /** From the very beginning: if something else than the timer calls the checks, the download completes. */
  lemma CompleteRun(c: Config) returns (events: seq<Timed>)
    requires c.master
    ensures Feasible(c, Initial(), events)
    ensures Run(c, Initial(), events).desk.drop.stage == DONE && Run(c, Initial(), events).desk.drop.status == READY
  {
    var end: seq<Timed>;
    ghost var t;
    if TradesEnabled(c) {
      end, t := PlayTrades(c);
    } else {
      WithoutTrades(c);
      end, t := [Timed(DropCheck(ORDERS), 8)] + [], Done(8, HAS_ORDERS, 5, IDLE.(acks := [A, O]));
      Stay(c, t);
      Play(c, OrdersHere(), Timed(DropCheck(ORDERS), 8), t, [], t);
    }
    events := Intro(Middle(end));
    hide At, OrdersHere, Intro, Middle;
    PlayMiddle(c, end, t);
    PlayIntro(c, Middle(end), t);
  }

  lemma PlayTrades(c: Config) returns (end: seq<Timed>, t: World)
    requires c.master && TradesEnabled(c)
    ensures Leads(c, OrdersHere(), end, t) && t.desk.drop.stage == DONE && t.desk.drop.status == READY
  {
    WithTrades(c);
    TradesArrive(c);
    t := Done(11, HAS_ORDERS.(trades := Stamps(8, 10)), 8, TradesWorker(c));
    Stay(c, t);
    assert t.desk.drop.stage == DONE && t.desk.drop.status == READY;
    hide Goes, Leads, At, OrdersHere, Busy, TradesAsked, TradesWorker, Done;
    var here := At(10, HAS_ORDERS.(trades := Stamps(8, 10)), WAITING(TRADES), DOWNLOADING, 1, 8, TradesWorker(c));
    var fetching := TradesAsked(Busy(TRADES, TradeFetches(c.symbols, 9), [A, O]), 9);
    Play(c, here, Timed(DropCheck(TRADES), 11), t, [], t);
    Play(c, fetching, Timed(FetchAck(0), 10), here, [Timed(DropCheck(TRADES), 11)] + [], t);
    Play(c, TradesAsked(IDLE.(acks := [A, O]), 8), Timed(WorkerTick(true), 9), fetching,
         [Timed(FetchAck(0), 10)] + ([Timed(DropCheck(TRADES), 11)] + []), t);
    end := [Timed(DropCheck(ORDERS), 8)] + ([Timed(WorkerTick(true), 9)] + ([Timed(FetchAck(0), 10)] + ([Timed(DropCheck(TRADES), 11)] + [])));
    Play(c, OrdersHere(), Timed(DropCheck(ORDERS), 8), TradesAsked(IDLE.(acks := [A, O]), 8),
         [Timed(WorkerTick(true), 9)] + ([Timed(FetchAck(0), 10)] + ([Timed(DropCheck(TRADES), 11)] + [])), t);
  }
}
