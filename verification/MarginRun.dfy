/** What holds over every run of a controller with margin and portfolio accounts. The mailbox record
    has fields for both kinds of account; the controller decides, by the margin mode of a listen-key
    update, which drop copy comes to write to the record of an account. */
module MarginRun {
  import opened Accounts
  import opened Wrappers
  import opened Mailbox
  import opened Margin

  /** An account: its mode, its mailbox, its margin order-entry stream, and the drop copies that the
      controller has created for it. `fatal` tells that the process has ended. */
  datatype Seat = Seat(
    mode: MarginMode, mail: Mail, worker: Worker, portfolioDrop: bool, marginDrop: Option<Drop>, fatal: bool)

  datatype World = World(now: int, seats: map<string, Seat>)

  /** The checks that the timer of the drop copy calls under READY. */
  datatype Check = LISTEN_KEY_CHECK | ACCOUNT_CHECK | ORDERS_CHECK

  datatype SeatEvent =
    // the order-entry stream of a portfolio account
    | PortfolioListenKey
    | PortfolioRespond(kind: Kind)
    // its drop copy
    | PortfolioRequest(kind: Kind)
    // the order-entry stream of a margin account
    | WorkerConnect
    | WorkerStatus(status: ConnectionStatus)
    | WorkerLost
    | WorkerTick(linkUp: bool, timerNow: int)
    | FetchAck(i: nat, ok: bool, listenKey: string)
    // its drop copy
    | DropReady
    | DropLogon(code: int)
    | DropSubscribe(code: int)
    | DropTerminated
    | DropTick(linkUp: bool)
    | DropCheck(check: Check)
    | DropLost

  datatype Timed = Timed(account: string, event: SeatEvent, time: int)

  const NEW_WORKER := Worker(DISCONNECTED, NO_FLAGS, 0, false, [], [])

  function NewSeat(mode: MarginMode): Seat {
    Seat(mode, EMPTY, NEW_WORKER, false, None, false)
  }

  function Initial(modes: map<string, MarginMode>): World {
    World(0, map a | a in modes :: NewSeat(modes[a]))
  }

  /** The controller on a listen-key update: it creates the drop copy that belongs to the margin mode
      of the update, or hands the key to the one it has. */
  function ListenKeyUpdate(s: Seat, mode: MarginMode, listenKey: string): Seat {
    match mode
    case UNDEFINED => s.(fatal := true)
    case PORTFOLIO => s.(portfolioDrop := true)
    case _ => s.(marginDrop := Some((if s.marginDrop.Some? then s.marginDrop.value else NEW_DROP).(listenToken := listenKey)))
  }

  /** Which streams exist for an account depends on its mode. */
  predicate Enabled(s: Seat, e: SeatEvent) {
    match e
    case PortfolioListenKey => s.mode == PORTFOLIO
    case PortfolioRespond(kind) => s.mode == PORTFOLIO && kind in SPOT
    case PortfolioRequest(kind) => s.portfolioDrop && kind in SPOT
    case FetchAck(i, _, _) => s.mode != PORTFOLIO && i < |s.worker.inFlight|
    case WorkerConnect => s.mode != PORTFOLIO
    case WorkerStatus(_) => s.mode != PORTFOLIO
    case WorkerLost => s.mode != PORTFOLIO
    case WorkerTick(_, _) => s.mode != PORTFOLIO
    case _ => s.marginDrop.Some?
  }

  function CheckStep(desk: Desk, check: Check, time: int): Desk {
    match check
    case LISTEN_KEY_CHECK => CheckListenKey(desk)
    case ACCOUNT_CHECK => CheckAccount(desk, time)
    case ORDERS_CHECK => CheckOrders(desk)
  }

  function WithDesk(s: Seat, desk: Desk): Seat {
    s.(mail := desk.mail, marginDrop := Some(desk.drop))
  }

  function SeatStep(c: Config, s: Seat, e: SeatEvent, time: int): Seat
    requires Enabled(s, e)
  {
    match e
    case PortfolioListenKey => ListenKeyUpdate(s, PORTFOLIO, "")
    case PortfolioRespond(kind) => s.(mail := s.mail.Answer(kind, time))
    case PortfolioRequest(kind) => s.(mail := s.mail.Ask(kind, time))
    case WorkerConnect => s.(worker := WorkerConnected(s.worker, time))
    case WorkerStatus(status) => s.(worker := s.worker.(status := status))
    case WorkerLost => s.(worker := WorkerDisconnected(s.worker))
    case WorkerTick(linkUp, timerNow) =>
      match WorkerTimer(c, s.mail, s.worker, linkUp, time, timerNow) {
        case None => s.(fatal := true)
        case Some(w) => s.(worker := w)
      }
    case FetchAck(i, ok, listenKey) =>
      var slot := s.worker.inFlight[i].slot;
      var t := s.(mail := s.mail.Answer(StampedKind(slot), time), worker := WorkerAck(s.worker, i, ok, time));
      if ok && slot == Download(LISTEN_KEY_CROSS) then ListenKeyUpdate(t, CROSS, listenKey) else t
    case DropReady => WithDesk(s, Begin(Desk(s.mail, s.marginDrop.value)))
    case DropLogon(code) => if code == 200 then WithDesk(s, LoggedOn(Desk(s.mail, s.marginDrop.value))) else s
    case DropSubscribe(code) => if code == 200 then WithDesk(s, Subscribed(Desk(s.mail, s.marginDrop.value), time)) else s
    case DropTerminated => WithDesk(s, EventStreamTerminated(Desk(s.mail, s.marginDrop.value), time))
    case DropTick(linkUp) => WithDesk(s, DropTimer(Desk(s.mail, s.marginDrop.value), linkUp, time))
    case DropCheck(check) => WithDesk(s, CheckStep(Desk(s.mail, s.marginDrop.value), check, time))
    case DropLost => s.(marginDrop := Some(s.marginDrop.value.(status := DISCONNECTED, stage := Stage.UNDEFINED)))
  }

  /** Events of one account leave all other accounts alone; nothing happens after the process has ended. */
  predicate Feasible(c: Config, w: World, events: seq<Timed>)
    decreases |events|
  {
    events != [] ==>
      var e := events[0];
      && w.now < e.time && e.account in w.seats && Enabled(w.seats[e.account], e.event)
      && (forall a :: a in w.seats ==> !w.seats[a].fatal)
      && Feasible(c, Step(c, w, e), events[1..])
  }

  function Step(c: Config, w: World, e: Timed): World
    requires e.account in w.seats && Enabled(w.seats[e.account], e.event)
  {
    World(e.time, w.seats[e.account := SeatStep(c, w.seats[e.account], e.event, e.time)])
  }

  function Run(c: Config, w: World, events: seq<Timed>): World
    requires Feasible(c, w, events)
    decreases |events|
  {
    if events == [] then w else Run(c, Step(c, w, events[0]), events[1..])
  }

  // --- the invariant

  /** The record and the streams of an account that is not a portfolio account stay clear of everything
      that belongs to the spot fields. */
  ghost predicate Isolated(s: Seat) {
    && !s.fatal && !s.portfolioDrop
    && (forall k :: k in SPOT ==> s.mail.At(k) == NEVER && !s.worker.flags.Has(Download(k)))
    && (forall f :: f in s.worker.inFlight && f.slot.Download? ==> f.slot.kind !in SPOT && f.slot.kind != TRADES_CROSS)
    && s.mail.tradesCross == NEVER && !s.worker.flags.Has(Download(TRADES_CROSS))
  }

  ghost predicate OneFlag(s: Seat) {
    forall x, y :: s.worker.flags.Has(x) && s.worker.flags.Has(y) ==> x == y
  }

  /** A raised flag has its request out, and, but for the cross account, is still due. */
  ghost predicate FlagsServe(s: Seat, now: int) {
    && (forall k :: 0 <= s.mail.At(k).request <= now && 0 <= s.mail.At(k).respond <= now)
    && (forall x :: s.worker.flags.Has(x) ==> exists f :: f in s.worker.inFlight && f.slot == x)
    && (forall k :: s.worker.flags.Has(Download(k)) && k != ACCOUNT_CROSS ==> s.mail.Due(k))
  }

  ghost predicate Portfolioed(s: Seat) {
    && !s.fatal && s.marginDrop.None? && s.worker == NEW_WORKER
    && forall k :: k !in SPOT ==> s.mail.At(k) == NEVER
  }

  ghost predicate SeatSafe(s: Seat, now: int) {
    if s.mode == PORTFOLIO then Portfolioed(s) else Isolated(s) && OneFlag(s) && FlagsServe(s, now)
  }

  ghost predicate Safe(w: World) {
    forall a :: a in w.seats ==> SeatSafe(w.seats[a], w.now)
  }

  lemma RemoveKeeps<T>(s: seq<T>, i: nat)
    requires i < |s|
    ensures forall x :: x in s[..i] + s[i + 1..] ==> x in s
    ensures forall x :: x in s && x != s[i] ==> x in s[..i] + s[i + 1..]
  {
    assert s == s[..i] + [s[i]] + s[i + 1..];
  }

  lemma {:induction false} RepeatIs(fetch: MarginFetch, n: nat)
    ensures |Repeat(fetch, n)| == n && forall i :: 0 <= i < n ==> Repeat(fetch, n)[i] == fetch
    ensures forall f :: f in Repeat(fetch, n) ==> f == fetch
    ensures n > 0 ==> fetch in Repeat(fetch, n)
  {
    if n > 0 {
      RepeatIs(fetch, n - 1);
    }
  }

  lemma SetHasAt(flags: Flags, s: Slot, b: bool, t: Slot)
    ensures flags.Set(s, b).Has(t) <==> if t == s then b else flags.Has(t)
  {
    SlotCases(t);
  }

  lemma SetHas(flags: Flags, s: Slot, b: bool)
    ensures forall t :: flags.Set(s, b).Has(t) <==> if t == s then b else flags.Has(t)
  {
    forall t
      ensures flags.Set(s, b).Has(t) <==> if t == s then b else flags.Has(t)
    {
      SetHasAt(flags, s, b, t);
    }
  }

  lemma NoFlags(flags: Flags)
    requires !flags.Downloading()
    ensures forall s :: !flags.Has(s)
  {
  }

  lemma TickSafe(c: Config, s: Seat, linkUp: bool, now: int, time: int, timerNow: int)
    requires s.mode != PORTFOLIO && SeatSafe(s, now) && now < time
    ensures SeatSafe(SeatStep(c, s, WorkerTick(linkUp, timerNow), time), time)
  {
    hide Flags.Set, Flags.Has;
    if linkUp && s.worker.status == READY && !s.worker.flags.Downloading() {
      NoFlags(s.worker.flags);
      var k := FirstDue(s.mail);
      assert k.Some? ==> k.value !in SPOT && k.value != TRADES_CROSS && s.mail.Due(k.value);
      var slot := if k.Some? then Download(k.value) else BORROWED;
      SetHas(s.worker.flags, slot, true);
      RepeatIs(MarginFetch(slot, time), 1);
    }
  }

  lemma AckSafe(c: Config, s: Seat, i: nat, ok: bool, listenKey: string, now: int, time: int)
    requires s.mode != PORTFOLIO && SeatSafe(s, now) && now < time && i < |s.worker.inFlight|
    ensures SeatSafe(SeatStep(c, s, FetchAck(i, ok, listenKey), time), time)
  {
    hide Flags.Set, Flags.Has;
    RemoveKeeps(s.worker.inFlight, i);
    SetHas(s.worker.flags, s.worker.inFlight[i].slot, false);
  }

  /** A margin drop copy asks for a cross-margin download other than trades, or for nothing. */
  lemma AskSafe(s: Seat, t: Seat, k: Kind, now: int, time: int)
    requires s.mode != PORTFOLIO && SeatSafe(s, now) && now < time && k in {LISTEN_KEY_CROSS, ACCOUNT_CROSS, ORDERS_CROSS}
    requires t.mail in {s.mail, s.mail.Ask(k, time)} && t == s.(mail := t.mail, marginDrop := t.marginDrop)
    ensures SeatSafe(t, time)
  {
  }

  lemma DropStepSafe(c: Config, s: Seat, e: SeatEvent, now: int, time: int)
    requires s.mode != PORTFOLIO && SeatSafe(s, now) && Enabled(s, e) && now < time
    requires e.DropReady? || e.DropLogon? || e.DropSubscribe? || e.DropTerminated? || e.DropTick? || e.DropCheck? || e.DropLost?
    ensures SeatSafe(SeatStep(c, s, e, time), time)
  {
    hide SeatSafe;
    var k := if e.DropTerminated? then LISTEN_KEY_CROSS else if e.DropSubscribe? then ACCOUNT_CROSS else ORDERS_CROSS;
    AskSafe(s, SeatStep(c, s, e, time), k, now, time);
  }

  lemma WorkerStepSafe(c: Config, s: Seat, e: SeatEvent, now: int, time: int)
    requires s.mode != PORTFOLIO && SeatSafe(s, now) && now < time
    requires e.WorkerConnect? || e.WorkerStatus? || e.WorkerLost?
    ensures SeatSafe(SeatStep(c, s, e, time), time)
  {
    NoFlags(NO_FLAGS);
  }

  lemma PortfolioStepSafe(c: Config, s: Seat, e: SeatEvent, now: int, time: int)
    requires s.mode == PORTFOLIO && SeatSafe(s, now) && Enabled(s, e)
    ensures SeatSafe(SeatStep(c, s, e, time), time)
  {
  }

  lemma SeatStepSafe(c: Config, s: Seat, e: SeatEvent, now: int, time: int)
    requires SeatSafe(s, now) && Enabled(s, e) && now < time
    ensures SeatSafe(SeatStep(c, s, e, time), time)
    ensures SeatStep(c, s, e, time).mode == s.mode
  {
    hide SeatSafe;
    if s.mode == PORTFOLIO {
      PortfolioStepSafe(c, s, e, now, time);
    } else {
      assert !s.portfolioDrop by { assert Isolated(s) by { ExpandSafe(s, now); } }
      match e
      case WorkerTick(linkUp, timerNow) => TickSafe(c, s, linkUp, now, time, timerNow);
      case FetchAck(i, ok, listenKey) => AckSafe(c, s, i, ok, listenKey, now, time);
      case WorkerConnect => WorkerStepSafe(c, s, e, now, time);
      case WorkerStatus(_) => WorkerStepSafe(c, s, e, now, time);
      case WorkerLost => WorkerStepSafe(c, s, e, now, time);
      case PortfolioListenKey =>
      case PortfolioRespond(_) =>
      case PortfolioRequest(_) =>
      case _ => DropStepSafe(c, s, e, now, time);
    }
  }

  lemma ExpandSafe(s: Seat, now: int)
    requires SeatSafe(s, now) && s.mode != PORTFOLIO
    ensures Isolated(s) && OneFlag(s)
  {
  }

  lemma StaysSafe(s: Seat, now: int, time: int)
    requires SeatSafe(s, now) && now < time
    ensures SeatSafe(s, time)
  {
  }

  lemma {:induction false} RunSafe(c: Config, w: World, events: seq<Timed>)
    requires Safe(w) && Feasible(c, w, events)
    ensures Safe(Run(c, w, events))
    ensures Run(c, w, events).seats.Keys == w.seats.Keys
    ensures forall a :: a in w.seats ==> Run(c, w, events).seats[a].mode == w.seats[a].mode
    decreases |events|
  {
    hide SeatSafe, SeatStep, Enabled;
    if events != [] {
      var e := events[0];
      SeatStepSafe(c, w.seats[e.account], e.event, w.now, e.time);
      forall a | a in w.seats && a != e.account
        ensures SeatSafe(w.seats[a], e.time)
      {
        StaysSafe(w.seats[a], w.now, e.time);
      }
      RunSafe(c, Step(c, w, e), events[1..]);
    }
  }

  lemma TimerAlive(c: Config, s: Seat, linkUp: bool, time: int, timerNow: int)
    requires Isolated(s)
    ensures WorkerTimer(c, s.mail, s.worker, linkUp, time, timerNow).Some?
  {
    assert !s.mail.Due(ACCOUNT) && !s.mail.Due(ORDERS);
  }

  // --- what a tick starts

  /** A worker that is ready and not busy. */
  predicate Idle(w: Worker) {
    && w.status == READY
    && !w.flags.account && !w.flags.orders && !w.flags.trades
    && !w.flags.listenKeyCross && !w.flags.accountCross && !w.flags.ordersCross && !w.flags.tradesCross
    && !w.flags.accountCrossOnTimer
  }

  /** One request goes out, and one flag goes up. */
  predicate Starts(s: Seat, t: Seat, slot: Slot, flags: Flags, time: int) {
    t == s.(worker := s.worker.(flags := flags, inFlight := s.worker.inFlight + [MarginFetch(slot, time)], nextPollBorrowed := t.worker.nextPollBorrowed))
  }

  lemma CrossFlags(flags: Flags)
    ensures flags.Set(Download(LISTEN_KEY_CROSS), true) == flags.(listenKeyCross := true)
    ensures flags.Set(Download(ACCOUNT_CROSS), true) == flags.(accountCross := true)
    ensures flags.Set(Download(ORDERS_CROSS), true) == flags.(ordersCross := true)
    ensures flags.Set(BORROWED, true) == flags.(accountCrossOnTimer := true)
  {
  }

  /** What a tick does to a worker that has no spot download to serve, which is true of every reachable one:
      it starts the first cross-margin download that is due, and if none is, the poll of borrowed amounts,
      provided that polls are on and none has been started yet or the time of the next one has passed. A
      poll sets that time, nothing else does. A worker that is not idle or has lost its link is left alone. */
  lemma TickStarts(c: Config, s: Seat, linkUp: bool, time: int, timerNow: int)
    requires s.mode != PORTFOLIO && Isolated(s)
    ensures var t := SeatStep(c, s, WorkerTick(linkUp, timerNow), time);
            var mail, flags, free := s.mail, s.worker.flags, linkUp && Idle(s.worker);
            var poll := c.pollBorrowed != 0 && (s.worker.nextPollBorrowed == 0 || s.worker.nextPollBorrowed < timerNow);
            if free && mail.listenKeyCross.respond < mail.listenKeyCross.request then
              && Starts(s, t, Download(LISTEN_KEY_CROSS), flags.(listenKeyCross := true), time)
              && t.worker.nextPollBorrowed == s.worker.nextPollBorrowed
            else if free && mail.accountCross.respond < mail.accountCross.request then
              && Starts(s, t, Download(ACCOUNT_CROSS), flags.(accountCross := true), time)
              && t.worker.nextPollBorrowed == s.worker.nextPollBorrowed
            else if free && mail.ordersCross.respond < mail.ordersCross.request then
              && Starts(s, t, Download(ORDERS_CROSS), flags.(ordersCross := true), time)
              && t.worker.nextPollBorrowed == s.worker.nextPollBorrowed
            else if free && poll then
              && Starts(s, t, BORROWED, flags.(accountCrossOnTimer := true), time)
              && t.worker.nextPollBorrowed == timerNow + c.pollBorrowed
            else t == s
  {
    assert s.mail.At(ACCOUNT) == s.mail.At(ORDERS) == s.mail.At(TRADES) == s.mail.At(TRADES_CROSS) == NEVER;
    CrossFlags(s.worker.flags);
    hide Repeat, Flags.Set, Flags.Has, Isolated;
    forall fetch
      ensures Repeat(fetch, 1) == [fetch]
    {
      RepeatIs(fetch, 1);
    }
  }

  /** In any state at all, a due download of the spot account or orders ends the process, and trades take
      as many requests as there are symbols, on the spot side as well as for cross margin. */
  lemma SpotStarts(c: Config, s: Seat, time: int, timerNow: int)
    requires s.mode != PORTFOLIO && Idle(s.worker)
    ensures var t := SeatStep(c, s, WorkerTick(true, timerNow), time);
            var before, after, flags := s.worker.inFlight, t.worker.inFlight, s.worker.flags;
            if s.mail.account.respond < s.mail.account.request || s.mail.orders.respond < s.mail.orders.request then
              t == s.(fatal := true)
            else if s.mail.trades.respond < s.mail.trades.request then
              && t.worker.flags == flags.(trades := true)
              && AddsTrades(c, before, after, TRADES, time)
            else
              s.mail.tradesCross.respond < s.mail.tradesCross.request && t.worker.flags.tradesCross ==>
                && t.worker.flags == flags.(tradesCross := true)
                && AddsTrades(c, before, after, TRADES_CROSS, time)
  {
    hide Repeat;
    RepeatIs(MarginFetch(Download(TRADES), time), |c.symbols|);
    RepeatIs(MarginFetch(Download(TRADES_CROSS), time), |c.symbols|);
  }

  /** One request per symbol behind those that are out. */
  ghost predicate AddsTrades(c: Config, before: seq<MarginFetch>, after: seq<MarginFetch>, k: Kind, time: int) {
    && before <= after
    && |after| == |before| + |c.symbols|
    && forall i :: |before| <= i < |after| ==> after[i] == MarginFetch(Download(k), time)
  }

  /** On connecting, a listen key is asked for unless the stream has had one; nothing else changes. */
  lemma ConnectAsks(c: Config, s: Seat, time: int)
    requires s.mode != PORTFOLIO
    ensures var t, ask := SeatStep(c, s, WorkerConnect, time), MarginFetch(Download(LISTEN_KEY_CROSS), time);
            t == s.(worker := s.worker.(inFlight := s.worker.inFlight + if s.worker.hasListenKeyCross then [] else [ask]))
  {
    assert s.worker.inFlight + [] == s.worker.inFlight;
  }

  /** A worker that is not ready and has no download running. */
  predicate Down(w: Worker) {
    && w.status != READY
    && !w.flags.account && !w.flags.orders && !w.flags.trades
    && !w.flags.listenKeyCross && !w.flags.accountCross && !w.flags.ordersCross && !w.flags.tradesCross
    && !w.flags.accountCrossOnTimer
  }

  lemma DownSeatStaysDown(c: Config, s: Seat, e: SeatEvent, time: int)
    requires Down(s.worker) && Enabled(s, e) && e != WorkerStatus(READY)
    ensures var t := SeatStep(c, s, e, time).worker;
            Down(t) && forall f :: f in t.inFlight ==> f in s.worker.inFlight || f.slot == Download(LISTEN_KEY_CROSS)
  {
    if e.FetchAck? {
      RemoveKeeps(s.worker.inFlight, e.i);
    }
  }

  lemma {:induction false} DownStaysDown(c: Config, w: World, account: string, events: seq<Timed>)
    requires Feasible(c, w, events) && account in w.seats && Down(w.seats[account].worker)
    requires forall e :: e in events && e.account == account ==> e.event != WorkerStatus(READY)
    ensures account in Run(c, w, events).seats
    ensures var before, after := w.seats[account].worker, Run(c, w, events).seats[account].worker;
            Down(after) && forall f :: f in after.inFlight ==> f in before.inFlight || f.slot == Download(LISTEN_KEY_CROSS)
    decreases |events|
  {
    hide SeatStep, Enabled, Down;
    if events != [] {
      var e := events[0];
      assert e in events;
      if e.account == account {
        DownSeatStaysDown(c, w.seats[account], e.event, e.time);
      }
      DownStaysDown(c, Step(c, w, e), account, events[1..]);
    }
  }

  /** A disconnect ends every download and leaves the requests that are out alone; until the stream is
      ready again no download begins and nothing is sent but requests for a listen key, on connecting. */
  lemma QuietWhileDown(c: Config, w: World, account: string, time: int, events: seq<Timed>)
    requires account in w.seats && w.seats[account].mode != PORTFOLIO
    requires Feasible(c, Step(c, w, Timed(account, WorkerLost, time)), events)
    requires forall e :: e in events && e.account == account ==> e.event != WorkerStatus(READY)
    ensures var lost := Step(c, w, Timed(account, WorkerLost, time));
            && lost.seats[account].worker.inFlight == w.seats[account].worker.inFlight
            && account in Run(c, lost, events).seats
            && var after := Run(c, lost, events).seats[account].worker;
               Down(after)
               && forall f :: f in after.inFlight ==> f in w.seats[account].worker.inFlight || f.slot == Download(LISTEN_KEY_CROSS)
  {
    DownStaysDown(c, Step(c, w, Timed(account, WorkerLost, time)), account, events);
    hide Run, Feasible;
  }

  // --- main results

  /** Margin isolation, over every run of a controller: the spot fields of an account that is not a
      portfolio account stay zero, no portfolio drop copy is created for it, none of the timer's spot
      branches is ever taken, and the process does not end; at most one of the eight flags is up. */
  lemma MarginIsolation(c: Config, modes: map<string, MarginMode>, events: seq<Timed>, account: string)
    requires Feasible(c, Initial(modes), events) && account in modes && modes[account] != PORTFOLIO
    ensures account in Run(c, Initial(modes), events).seats
    ensures var s := Run(c, Initial(modes), events).seats[account];
            && s.mail.account == s.mail.orders == s.mail.trades == NEVER
            && !s.portfolioDrop && !s.fatal
            && (forall k :: k in SPOT ==> !s.worker.flags.Has(Download(k)) && !s.mail.Due(k))
            && (forall time, timerNow, linkUp :: WorkerTimer(c, s.mail, s.worker, linkUp, time, timerNow).Some?)
            && (forall x, y :: s.worker.flags.Has(x) && s.worker.flags.Has(y) ==> x == y)
            && (forall k :: s.worker.flags.Has(Download(k)) && k != ACCOUNT_CROSS ==> s.mail.Due(k))
  {
    hide Run, Feasible, Step, SeatStep, WorkerTimer;
    var w := Initial(modes);
    NoFlags(NO_FLAGS);
    assert Safe(w);
    RunSafe(c, w, events);
    var s := Run(c, w, events).seats[account];
    assert SeatSafe(s, Run(c, w, events).now);
    forall time, timerNow, linkUp
      ensures WorkerTimer(c, s.mail, s.worker, linkUp, time, timerNow).Some?
    {
      TimerAlive(c, s, linkUp, time, timerNow);
    }
  }

  /** The other way round, a portfolio account never gets a margin drop copy, and its cross-margin
      fields stay zero. */
  lemma PortfolioIsolation(c: Config, modes: map<string, MarginMode>, events: seq<Timed>, account: string)
    requires Feasible(c, Initial(modes), events) && account in modes && modes[account] == PORTFOLIO
    ensures account in Run(c, Initial(modes), events).seats
    ensures var s := Run(c, Initial(modes), events).seats[account];
            s.marginDrop.None? && !s.fatal && forall k :: k !in SPOT ==> s.mail.At(k) == NEVER
  {
    hide Run, Feasible, Step, SeatStep;
    var w := Initial(modes);
    NoFlags(NO_FLAGS);
    assert Safe(w);
    RunSafe(c, w, events);
    assert SeatSafe(Run(c, w, events).seats[account], Run(c, w, events).now);
  }

  /** The cross account is the exception to "a raised flag is still due": the poll of borrowed amounts
      stamps the same response field, so its late callback settles the request while the flag stays up. */
  lemma PollSettlesAccount(c: Config, s: Seat, i: nat, ok: bool, now: int, time: int)
    requires SeatSafe(s, now) && s.mode != PORTFOLIO && now < time
    requires i < |s.worker.inFlight| && s.worker.inFlight[i].slot == BORROWED && s.worker.flags.Has(Download(ACCOUNT_CROSS))
    ensures var t := SeatStep(c, s, FetchAck(i, ok, ""), time);
            t.worker.flags.Has(Download(ACCOUNT_CROSS)) && !t.mail.Due(ACCOUNT_CROSS)
  {
    SetHas(s.worker.flags, BORROWED, false);
  }
}
