/** What holds over every run of a portfolio-margin account: order entry, drop copy and exchange act
    in any order, callbacks may come late, also after a disconnect, and time always moves on. */
module PortfolioRun {
  import opened Wrappers
  import opened Mailbox
  import opened Portfolio

  datatype World = World(now: int, desk: Desk, worker: Worker)

  datatype Event =
    | WorkerStatus(status: ConnectionStatus)
    | WorkerLost
    | WorkerTick(linkUp: bool)
    | FetchAck(i: nat)
    | DropReady
    | DropLost
    | DropTick(linkUp: bool)
    | DropCheck(kind: Kind)

  datatype Timed = Timed(event: Event, time: int)

  function Initial(): World {
    World(0, Desk(EMPTY, Drop(DISCONNECTED, UNDEFINED, 0, 0)), Worker(DISCONNECTED, NO_FLAGS, [], []))
  }

  predicate Enabled(w: World, e: Timed) {
    && w.now < e.time
    && (e.event.FetchAck? ==> e.event.i < |w.worker.inFlight|)
    && (e.event.DropCheck? ==> e.event.kind in SPOT)
  }

  function Step(c: Config, w: World, e: Timed): World
    requires Enabled(w, e)
  {
    var World(_, desk, worker) := w;
    match e.event
    case WorkerStatus(status) => World(e.time, desk, worker.(status := status))
    case WorkerLost => World(e.time, desk, WorkerDisconnected(worker))
    case WorkerTick(linkUp) => World(e.time, desk, WorkerTimer(c, desk.mail, worker, linkUp, e.time))
    case FetchAck(i) =>
      World(e.time, desk.(mail := desk.mail.Answer(worker.inFlight[i].kind, e.time)), WorkerAck(worker, i, e.time))
    case DropReady => World(e.time, Begin(desk, e.time), worker)
    case DropLost => World(e.time, desk.(drop := DropDisconnected(desk.drop)), worker)
    case DropTick(linkUp) => World(e.time, DropTimer(c, desk, linkUp, e.time), worker)
    case DropCheck(kind) => World(e.time, Check(c, desk, kind, e.time), worker)
  }

  predicate Feasible(c: Config, w: World, events: seq<Timed>)
    decreases |events|
  {
    events != [] ==> Enabled(w, events[0]) && Feasible(c, Step(c, w, events[0]), events[1..])
  }

  function Run(c: Config, w: World, events: seq<Timed>): World
    requires Feasible(c, w, events)
    decreases |events|
  {
    if events == [] then w else Run(c, Step(c, w, events[0]), events[1..])
  }

  // --- the invariant

  /** When a download of this kind was last acknowledged; zero means never. */
  function LatestAck(acks: seq<Ack>, k: Kind): int {
    if acks == [] then 0
    else if acks[|acks| - 1].kind == k then acks[|acks| - 1].handled
    else LatestAck(acks[..|acks| - 1], k)
  }

  /** The acknowledgements contain one of each kind, in this order, all of them after time `lo` and
      before time `hi`. */
  ghost predicate Served(acks: seq<Ack>, kinds: seq<Kind>, lo: int, hi: int)
    decreases |kinds|
  {
    if kinds == [] then lo < hi
    else exists a :: a in acks && a.kind == kinds[|kinds| - 1] && a.handled < hi && Served(acks, kinds[..|kinds| - 1], lo, a.handled)
  }

  /** The downloads that come before a stage. */
  function Before(c: Config, stage: Stage): seq<Kind> {
    match stage
    case UNDEFINED => []
    case WAITING(k) => if k == ORDERS then [ACCOUNT] else if k == TRADES then [ACCOUNT, ORDERS] else []
    case DONE => if TradesEnabled(c) then [ACCOUNT, ORDERS, TRADES] else [ACCOUNT, ORDERS]
  }

  ghost predicate MailSafe(c: Config, w: World) {
    var mail := w.desk.mail;
    && (forall k :: 0 <= mail.At(k).request <= w.now && 0 <= mail.At(k).respond <= w.now)
    && (forall k :: mail.At(k).request == mail.At(k).respond ==> mail.At(k) == NEVER)
    && (forall k :: k !in SPOT ==> mail.At(k) == NEVER)
    && (forall k :: k in SPOT ==> mail.At(k).respond == LatestAck(w.worker.acks, k))
    && (mail.trades.request != 0 ==> TradesEnabled(c))
  }

  ghost predicate WorkerSafe(w: World) {
    var worker := w.worker;
    && (forall j, k :: worker.flags.Has(j) && worker.flags.Has(k) ==> j == k)
    && (forall k :: worker.flags.Has(k) ==> w.desk.mail.Due(k) && exists f :: f in worker.inFlight && f.kind == k)
    && (forall f :: f in worker.inFlight ==> f.kind in SPOT && f.issued <= w.now)
    && (forall a :: a in worker.acks ==> 0 < a.handled <= w.now && a.issued <= w.now)
  }

  ghost predicate DropSafe(c: Config, w: World) {
    var drop := w.desk.drop;
    && drop.begun <= drop.entered <= w.now
    && (drop.stage.WAITING? ==> drop.stage.kind in SPOT && w.desk.mail.At(drop.stage.kind).request == drop.entered)
    && (drop.stage.WAITING? && drop.stage.kind != ACCOUNT ==>
          Served(w.worker.acks, Before(c, drop.stage), drop.begun, drop.entered))
    && (drop.stage == WAITING(ACCOUNT) ==> drop.begun == drop.entered)
    && (drop.stage == DONE ==> Served(w.worker.acks, Before(c, drop.stage), drop.begun, w.now + 1))
  }

  ghost predicate Safe(c: Config, w: World) {
    MailSafe(c, w) && WorkerSafe(w) && DropSafe(c, w)
  }

  lemma {:induction false} ServedMonotone(acks: seq<Ack>, more: seq<Ack>, kinds: seq<Kind>, lo: int, hi: int, later: int)
    requires Served(acks, kinds, lo, hi) && hi <= later && acks <= more
    ensures Served(more, kinds, lo, later)
    decreases |kinds|
  {
    if kinds != [] {
      var front := kinds[..|kinds| - 1];
      var a :| a in acks && a.kind == kinds[|kinds| - 1] && a.handled < hi && Served(acks, front, lo, a.handled);
      ServedMonotone(acks, more, front, lo, a.handled, a.handled);
      assert a in more;
    }
  }

  lemma {:induction false} LatestAckIsAck(acks: seq<Ack>, k: Kind)
    ensures LatestAck(acks, k) != 0 ==> exists a :: a in acks && a.kind == k && a.handled == LatestAck(acks, k)
  {
    if acks != [] {
      LatestAckIsAck(acks[..|acks| - 1], k);
      assert acks[|acks| - 1] in acks;
    }
  }

  lemma RemoveKeeps<T>(s: seq<T>, i: nat)
    requires i < |s|
    ensures forall x :: x in Remove(s, i) ==> x in s
    ensures forall x :: x in s && x != s[i] ==> x in Remove(s, i)
  {
    assert s == s[..i] + [s[i]] + s[i + 1..];
  }

  lemma {:induction false} TradeFetchesAre(symbols: seq<string>, time: int)
    ensures |TradeFetches(symbols, time)| == |symbols|
    ensures forall i :: 0 <= i < |symbols| ==> TradeFetches(symbols, time)[i] == Fetch(TRADES, symbols[i], time)
    ensures forall f :: f in TradeFetches(symbols, time) ==> f.kind == TRADES && f.issued == time
  {
    if symbols != [] {
      TradeFetchesAre(symbols[..|symbols| - 1], time);
    }
  }

  /** A started download has at least one request out: trades are asked for only if there are symbols. */
  lemma FetchesAre(c: Config, k: Kind, time: int)
    ensures forall f :: f in Fetches(c, k, time) ==> f.kind == k && f.issued == time
    ensures k != TRADES || TradesEnabled(c) ==> exists f :: f in Fetches(c, k, time) && f.kind == k && f.issued == time
  {
    if k == TRADES {
      TradeFetchesAre(c.symbols, time);
      if TradesEnabled(c) {
        assert TradeFetches(c.symbols, time)[0] in Fetches(c, k, time);
      }
    } else {
      assert Fetch(k, "", time) in Fetches(c, k, time);
    }
  }

  // --- what a download asks for

  /** A worker that is ready, the master, and not busy with a download. */
  predicate Idle(c: Config, w: World) {
    c.master && w.worker.status == READY && !w.worker.flags.account && !w.worker.flags.orders && !w.worker.flags.trades
  }

  /** A tick starts the download that is due, account first and trades last, if the link is up and the
      worker is idle. A download of the account or of the orders is one request without a symbol, a download
      of trades one request for each symbol of the settings, in their order. Otherwise nothing is sent. */
  lemma TickSends(c: Config, w: World, linkUp: bool, time: int)
    requires w.now < time
    ensures var mail, flags := w.desk.mail, w.worker.flags;
            var next := Step(c, w, Timed(WorkerTick(linkUp), time)).worker;
            var free, sent := linkUp && Idle(c, w), next.inFlight[|w.worker.inFlight|..];
            && w.worker.inFlight <= next.inFlight
            && next.(flags := flags, inFlight := w.worker.inFlight) == w.worker
            && if free && mail.account.respond < mail.account.request then
                 next.flags == flags.(account := true) && sent == [Fetch(ACCOUNT, "", time)]
               else if free && mail.orders.respond < mail.orders.request then
                 next.flags == flags.(orders := true) && sent == [Fetch(ORDERS, "", time)]
               else if free && mail.trades.respond < mail.trades.request then
                 && next.flags == flags.(trades := true)
                 && |sent| == |c.symbols|
                 && forall i :: 0 <= i < |sent| ==> sent[i] == Fetch(TRADES, c.symbols[i], time)
               else next == w.worker
  {
    hide TradeFetches;
    TradeFetchesAre(c.symbols, time);
  }

  /** A worker that is not ready and has no download running. */
  predicate Down(w: World) {
    w.worker.status != READY && !w.worker.flags.account && !w.worker.flags.orders && !w.worker.flags.trades
  }

  lemma {:induction false} DownStaysDown(c: Config, w: World, events: seq<Timed>)
    requires Down(w) && Feasible(c, w, events) && forall e :: e in events ==> e.event != WorkerStatus(READY)
    ensures Down(Run(c, w, events))
    ensures forall f :: f in Run(c, w, events).worker.inFlight ==> f in w.worker.inFlight
    decreases |events|
  {
    if events != [] {
      assert events[0] in events;
      if events[0].event.FetchAck? {
        RemoveKeeps(w.worker.inFlight, events[0].event.i);
      }
      DownStaysDown(c, Step(c, w, events[0]), events[1..]);
    }
  }

  /** A disconnect ends every download and leaves the requests that are out alone; until the stream is
      ready again no download begins and nothing is sent, whatever the drop copy asks for. */
  lemma QuietWhileDown(c: Config, w: World, time: int, events: seq<Timed>)
    requires w.now < time && Feasible(c, Step(c, w, Timed(WorkerLost, time)), events)
    requires forall e :: e in events ==> e.event != WorkerStatus(READY)
    ensures var lost := Step(c, w, Timed(WorkerLost, time));
            && lost.worker.inFlight == w.worker.inFlight
            && Down(Run(c, lost, events))
            && forall f :: f in Run(c, lost, events).worker.inFlight ==> f in w.worker.inFlight
  {
    DownStaysDown(c, Step(c, w, Timed(WorkerLost, time)), events);
    hide Run, Feasible;
  }

  /** A timer makes at most one of the checks succeed: the stage it enters cannot be over yet. */
  lemma OneCheckPerTick(c: Config, w: World, time: int)
    requires MailSafe(c, w) && DropSafe(c, w) && w.now < time
    ensures DropTimer(c, w.desk, true, time) ==
            if w.desk.drop.status == READY && w.desk.drop.stage.WAITING? then Check(c, w.desk, w.desk.drop.stage.kind, time) else w.desk
  {
    forall k | k in SPOT
      ensures w.desk.mail.At(k).respond < time
    {
      assert w.desk.mail.At(k).respond <= w.now;
    }
  }

  /** The step of the drop copy that a timer or a direct check amounts to. */
  function Checked(c: Config, w: World, time: int): World {
    if w.desk.drop.stage.WAITING? then World(time, Check(c, w.desk, w.desk.drop.stage.kind, time), w.worker)
    else World(time, w.desk, w.worker)
  }

  lemma StepChecks(c: Config, w: World, e: Timed)
    requires Safe(c, w) && Enabled(w, e) && (e.event.DropTick? || e.event.DropCheck?)
    ensures Step(c, w, e) in {Checked(c, w, e.time), World(e.time, w.desk, w.worker)}
  {
    if e.event.DropTick? {
      OneCheckPerTick(c, w, e.time);
    }
  }

  lemma EnterMail(c: Config, w: World, k: Kind, time: int)
    requires MailSafe(c, w) && w.now < time && k in SPOT && (k == TRADES ==> TradesEnabled(c))
    ensures MailSafe(c, World(time, Enter(w.desk, k, time), w.worker))
  {
  }

  lemma AckMail(c: Config, w: World, i: nat, time: int)
    requires MailSafe(c, w) && WorkerSafe(w) && i < |w.worker.inFlight| && w.now < time
    ensures MailSafe(c, Step(c, w, Timed(FetchAck(i), time)))
  {
    var fetch := w.worker.inFlight[i];
    var acks := w.worker.acks + [Ack(fetch.kind, fetch.issued, time)];
    assert acks[..|acks| - 1] == w.worker.acks;
  }

  lemma StepMail(c: Config, w: World, e: Timed)
    requires Safe(c, w) && Enabled(w, e)
    ensures MailSafe(c, Step(c, w, e))
  {
    hide Enter;
    match e.event
    case FetchAck(i) => AckMail(c, w, i, e.time);
    case DropReady => EnterMail(c, w.(desk := w.desk.(drop := w.desk.drop.(begun := e.time))), ACCOUNT, e.time);
    case DropTick(_) => StepChecks(c, w, e); CheckedMail(c, w, e.time);
    case DropCheck(_) => StepChecks(c, w, e); CheckedMail(c, w, e.time);
    case _ =>
  }

  lemma CheckedMail(c: Config, w: World, time: int)
    requires Safe(c, w) && w.now < time
    ensures MailSafe(c, Checked(c, w, time))
  {
    hide Enter;
    EnterMail(c, w, ORDERS, time);
    if TradesEnabled(c) {
      EnterMail(c, w, TRADES, time);
    }
  }

  lemma TickWorker(c: Config, w: World, linkUp: bool, time: int)
    requires MailSafe(c, w) && WorkerSafe(w) && w.now < time
    ensures WorkerSafe(Step(c, w, Timed(WorkerTick(linkUp), time)))
  {
    hide TradeFetches;
    var k := FirstDue(w.desk.mail);
    if k.Some? {
      FetchesAre(c, k.value, time);
    }
  }

  lemma AckWorker(c: Config, w: World, i: nat, time: int)
    requires 0 <= w.now < time && WorkerSafe(w) && i < |w.worker.inFlight|
    ensures WorkerSafe(Step(c, w, Timed(FetchAck(i), time)))
  {
    RemoveKeeps(w.worker.inFlight, i);
  }

  lemma StepWorker(c: Config, w: World, e: Timed)
    requires Safe(c, w) && Enabled(w, e)
    ensures WorkerSafe(Step(c, w, e))
  {
    match e.event
    case WorkerTick(linkUp) => TickWorker(c, w, linkUp, e.time);
    case FetchAck(i) =>
      assert 0 <= w.desk.mail.At(ACCOUNT).request <= w.now;
      AckWorker(c, w, i, e.time);
    case DropTick(_) => StepChecks(c, w, e);
    case _ =>
  }

  /** If a check of kind k succeeds, an acknowledgement of kind k was handled during the stage. */
  lemma CheckServed(c: Config, w: World, k: Kind)
    requires Safe(c, w) && w.desk.drop.stage == WAITING(k) && w.desk.mail.At(k).request < w.desk.mail.At(k).respond
    ensures Served(w.worker.acks, Before(c, w.desk.drop.stage) + [k], w.desk.drop.begun, w.now + 1)
  {
    var acks, drop := w.worker.acks, w.desk.drop;
    var kinds := Before(c, drop.stage) + [k];
    LatestAckIsAck(acks, k);
    var a :| a in acks && a.kind == k && a.handled == LatestAck(acks, k);
    assert kinds[..|kinds| - 1] == Before(c, drop.stage);
    if k != ACCOUNT {
      ServedMonotone(acks, acks, Before(c, drop.stage), drop.begun, drop.entered, a.handled);
    }
  }

  lemma CheckedDrop(c: Config, w: World, time: int)
    requires Safe(c, w) && w.now < time
    ensures DropSafe(c, Checked(c, w, time))
  {
    hide Served;
    var drop := w.desk.drop;
    LaterDrop(c, w, w.worker.acks, time);
    if drop.stage.WAITING? && w.desk.mail.At(drop.stage.kind).request < w.desk.mail.At(drop.stage.kind).respond {
      CheckServed(c, w, drop.stage.kind);
      var kinds := Before(c, drop.stage) + [drop.stage.kind];
      ServedMonotone(w.worker.acks, w.worker.acks, kinds, drop.begun, w.now + 1, time);
      ServedMonotone(w.worker.acks, w.worker.acks, kinds, drop.begun, w.now + 1, time + 1);
      assert Before(c, Checked(c, w, time).desk.drop.stage) == kinds;
    }
  }

  /** Time passes and acknowledgements arrive; what was served stays served. */
  lemma LaterDrop(c: Config, w: World, acks: seq<Ack>, time: int)
    requires DropSafe(c, w) && w.worker.acks <= acks && w.now < time
    ensures var drop := w.desk.drop;
            && (drop.stage.WAITING? && drop.stage.kind != ACCOUNT ==> Served(acks, Before(c, drop.stage), drop.begun, drop.entered))
            && (drop.stage == DONE ==> Served(acks, Before(c, drop.stage), drop.begun, time + 1))
  {
    var drop := w.desk.drop;
    if drop.stage == DONE {
      ServedMonotone(w.worker.acks, acks, Before(c, drop.stage), drop.begun, w.now + 1, time + 1);
    } else if drop.stage.WAITING? && drop.stage.kind != ACCOUNT {
      ServedMonotone(w.worker.acks, acks, Before(c, drop.stage), drop.begun, drop.entered, drop.entered);
    }
  }

  lemma StepDrop(c: Config, w: World, e: Timed)
    requires Safe(c, w) && Enabled(w, e)
    ensures DropSafe(c, Step(c, w, e))
  {
    hide Served;
    match e.event
    case DropTick(_) => StepChecks(c, w, e); CheckedDrop(c, w, e.time); LaterDrop(c, w, w.worker.acks, e.time);
    case DropCheck(_) => StepChecks(c, w, e); CheckedDrop(c, w, e.time); LaterDrop(c, w, w.worker.acks, e.time);
    case _ => LaterDrop(c, w, Step(c, w, e).worker.acks, e.time);
  }

  lemma StepSafe(c: Config, w: World, e: Timed)
    requires Safe(c, w) && Enabled(w, e)
    ensures Safe(c, Step(c, w, e))
  {
    StepMail(c, w, e);
    StepWorker(c, w, e);
    StepDrop(c, w, e);
  }

  lemma {:induction false} RunSafe(c: Config, w: World, events: seq<Timed>)
    requires Safe(c, w) && Feasible(c, w, events)
    ensures Safe(c, Run(c, w, events))
    decreases |events|
  {
    hide Safe, Step;
    if events != [] {
      StepSafe(c, w, events[0]);
      RunSafe(c, Step(c, w, events[0]), events[1..]);
    }
  }

  lemma InitiallySafe(c: Config)
    ensures Safe(c, Initial())
  {
  }

  // --- main results

  /** The mailbox, in every state of every run. */
  lemma MailboxSafety(c: Config, events: seq<Timed>)
    requires Feasible(c, Initial(), events)
    ensures var w := Run(c, Initial(), events);
            var mail, worker := w.desk.mail, w.worker;
            && (forall j, k :: worker.flags.Has(j) && worker.flags.Has(k) ==> j == k)
            && (forall k :: worker.flags.Has(k) ==>
                  mail.At(k).respond < mail.At(k).request && exists f :: f in worker.inFlight && f.kind == k)
            && (forall k :: k in SPOT ==> mail.At(k).respond == LatestAck(worker.acks, k))
            && (forall k :: mail.At(k).request == mail.At(k).respond ==> mail.At(k).request == 0)
            && (forall k :: k !in SPOT ==> mail.At(k) == NEVER)
  {
    InitiallySafe(c);
    RunSafe(c, Initial(), events);
  }

  predicate IsCheck(e: Event) {
    e.DropTick? || e.DropCheck?
  }

  /** The handshake: whenever a check moves the drop copy on from the stage of kind k, a callback of
      kind k was handled strictly after the time at which that stage made its request. */
  lemma Handshake(c: Config, events: seq<Timed>, e: Timed)
    requires Feasible(c, Initial(), events) && Enabled(Run(c, Initial(), events), e) && IsCheck(e.event)
    ensures var w := Run(c, Initial(), events);
            var drop := w.desk.drop;
            drop.stage.WAITING? && Step(c, w, e).desk.drop.stage != drop.stage ==>
              && w.desk.mail.At(drop.stage.kind).request == drop.entered
              && exists a :: a in w.worker.acks && a.kind == drop.stage.kind && drop.entered < a.handled
  {
    var w := Run(c, Initial(), events);
    InitiallySafe(c);
    RunSafe(c, Initial(), events);
    StepChecks(c, w, e);
    var drop := w.desk.drop;
    if drop.stage.WAITING? && Step(c, w, e).desk.drop.stage != drop.stage {
      LatestAckIsAck(w.worker.acks, drop.stage.kind);
    }
  }

  /** A completed download was served in full and in order since its beginning. */
  lemma CompletedDownloadWasServed(c: Config, events: seq<Timed>)
    requires Feasible(c, Initial(), events)
    ensures var w := Run(c, Initial(), events);
            var trades := c.tradesLookback != 0 && c.symbols != [];
            && (w.desk.drop.stage == DONE ==>
                  Served(w.worker.acks, if trades then [ACCOUNT, ORDERS, TRADES] else [ACCOUNT, ORDERS], w.desk.drop.begun, w.now + 1))
            && (!trades ==> w.desk.mail.trades.request == 0)
  {
    InitiallySafe(c);
    RunSafe(c, Initial(), events);
  }

  predicate Tells(drop: Drop) {
    match drop.stage
    case UNDEFINED => drop.status == DISCONNECTED
    case WAITING(_) => drop.status == DOWNLOADING
    case DONE => drop.status == READY
  }

  lemma {:induction false} RunTells(c: Config, w: World, events: seq<Timed>)
    requires Tells(w.desk.drop) && Feasible(c, w, events)
    ensures Tells(Run(c, w, events).desk.drop)
    decreases |events|
  {
    if events != [] {
      RunTells(c, Step(c, w, events[0]), events[1..]);
    }
  }

  /** In every state of every run, what the drop copy publishes tells its stage: DISCONNECTED without one,
      READY when the download is done, DOWNLOADING while it waits for something. */
  lemma StatusTellsStage(c: Config, events: seq<Timed>)
    requires Feasible(c, Initial(), events)
    ensures var drop := Run(c, Initial(), events).desk.drop;
            && (drop.status == DISCONNECTED <==> drop.stage == UNDEFINED)
            && (drop.status == DOWNLOADING <==> drop.stage.WAITING?)
            && (drop.status == READY <==> drop.stage == DONE)
  {
    RunTells(c, Initial(), events);
  }

  /** The gate in front of the checks: entering a stage publishes the status DOWNLOADING, and the
      timer checks only under READY. If nothing but the timer calls the checks, no stage ever ends. */
  lemma {:induction false} TimerNeverEndsAStage(c: Config, w: World, events: seq<Timed>)
    requires Feasible(c, w, events) && forall e :: e in events ==> !e.event.DropCheck?
    requires w.desk.drop.stage in {UNDEFINED, WAITING(ACCOUNT)} && (w.desk.drop.stage.WAITING? ==> w.desk.drop.status != READY)
    ensures Run(c, w, events).desk.drop.stage in {UNDEFINED, WAITING(ACCOUNT)}
    decreases |events|
  {
    if events != [] {
      assert events[0] in events;
      TimerNeverEndsAStage(c, Step(c, w, events[0]), events[1..]);
    }
  }

  // --- is the answer newer than the question?

  ghost predicate FreshSince(w: World, k: Kind, time: int) {
    && (forall f :: f in w.worker.inFlight && f.kind == k ==> time < f.issued)
    && (forall a :: a in w.worker.acks && a.kind == k && time < a.handled ==> time < a.issued)
  }

  lemma {:induction false} FreshStays(c: Config, w: World, events: seq<Timed>, k: Kind, time: int)
    requires Feasible(c, w, events) && FreshSince(w, k, time) && time <= w.now
    ensures FreshSince(Run(c, w, events), k, time)
    decreases |events|
  {
    if events != [] {
      var e := events[0];
      match e.event {
        case WorkerTick(_) =>
          var j := FirstDue(w.desk.mail);
          if j.Some? {
            FetchesAre(c, j.value, e.time);
          }
        case FetchAck(i) => RemoveKeeps(w.worker.inFlight, i);
        case _ =>
      }
      FreshStays(c, Step(c, w, e), events[1..], k, time);
    }
  }

  /** After `events`, the check `e` ends the stage that was current in w. */
  ghost predicate Ends(c: Config, w: World, events: seq<Timed>, e: Timed) {
    && Feasible(c, w, events)
    && Enabled(Run(c, w, events), e)
    && IsCheck(e.event)
    && Run(c, w, events).desk.drop == w.desk.drop
    && Step(c, Run(c, w, events), e).desk.drop.stage != w.desk.drop.stage
  }

  /** Whatever happens next, a check ends the stage only after a callback whose request was issued
      during the stage. */
  ghost predicate AlwaysFresh(c: Config, w: World)
    requires w.desk.drop.stage.WAITING?
  {
    forall events, e :: Ends(c, w, events, e) ==>
      exists a :: a in Run(c, w, events).worker.acks && a.kind == w.desk.drop.stage.kind && w.desk.drop.entered < a.issued
  }

  /** A stage that has just been entered ends only on an answer to a request made during the stage,
      if and only if no request of that kind was still out when the stage was entered. A late callback
      from before a disconnect is taken for the answer. */
  lemma FreshnessCondition(c: Config, w: World)
    requires Safe(c, w) && w.desk.drop.stage.WAITING? && w.now == w.desk.drop.entered
    ensures AlwaysFresh(c, w) <==> forall f :: f in w.worker.inFlight ==> f.kind != w.desk.drop.stage.kind
  {
    hide Served, Before;
    var drop := w.desk.drop;
    var k := drop.stage.kind;
    if f :| f in w.worker.inFlight && f.kind == k {
      var i :| 0 <= i < |w.worker.inFlight| && w.worker.inFlight[i] == f;
      var ack, check := Timed(FetchAck(i), w.now + 1), Timed(DropCheck(k), w.now + 2);
      var w1 := Step(c, w, ack);
      assert Run(c, w, [ack]) == w1 by {
        assert [ack][1..] == [];
      }
      assert Ends(c, w, [ack], check);
      assert forall a :: a in w1.worker.acks && a.kind == k ==> a.issued <= drop.entered;
    } else {
      forall events, e | Ends(c, w, events, e)
        ensures exists a :: a in Run(c, w, events).worker.acks && a.kind == k && drop.entered < a.issued
      {
        var w1 := Run(c, w, events);
        RunSafe(c, w, events);
        FreshStays(c, w, events, k, w.now);
        StepChecks(c, w1, e);
        LatestAckIsAck(w1.worker.acks, k);
      }
    }
  }

  // --- draining

  function Pending(mail: Mail): set<Kind> {
    set k | k in SPOT && mail.Due(k)
  }

  /** A timer tick, followed by callbacks until every request issued on that tick has been answered. */
  ghost predicate IsRound(c: Config, w: World, events: seq<Timed>) {
    && events != []
    && events[0].event == WorkerTick(true)
    && Feasible(c, w, events)
    && (forall e :: e in events[1..] ==> e.event.FetchAck?)
    && (forall f :: f in Run(c, w, events).worker.inFlight ==> f.issued != events[0].time)
  }

  /** How a later world compares with an earlier one if only callbacks ran in between: some kinds are
      settled, namely those of the requests that are no longer out. */
  ghost predicate Settled(w: World, w': World) {
    && w'.worker.status == w.worker.status
    && Pending(w'.desk.mail) <= Pending(w.desk.mail)
    && (forall k :: w'.worker.flags.Has(k) ==> w.worker.flags.Has(k))
    && (forall f :: f in w'.worker.inFlight ==> f in w.worker.inFlight)
    && (forall f :: f in w.worker.inFlight && f !in w'.worker.inFlight ==> f.kind !in Pending(w'.desk.mail) && !w'.worker.flags.Has(f.kind))
    && (forall k :: k in Pending(w.desk.mail) && k !in Pending(w'.desk.mail) ==> exists f :: f in w.worker.inFlight && f.kind == k)
  }

  lemma AckSettles(c: Config, w: World, e: Timed)
    requires MailSafe(c, w) && Enabled(w, e) && e.event.FetchAck?
    ensures Settled(w, Step(c, w, e))
  {
    RemoveKeeps(w.worker.inFlight, e.event.i);
    assert w.worker.inFlight[e.event.i] in w.worker.inFlight;
  }

  lemma {:induction false} AcksSettle(c: Config, w: World, events: seq<Timed>)
    requires Safe(c, w) && Feasible(c, w, events) && forall e :: e in events ==> e.event.FetchAck?
    ensures Settled(w, Run(c, w, events))
    decreases |events|
  {
    hide Pending, MailSafe, WorkerSafe, DropSafe, Step;
    if events != [] {
      assert events[0] in events;
      AckSettles(c, w, events[0]);
      StepSafe(c, w, events[0]);
      AcksSettle(c, Step(c, w, events[0]), events[1..]);
    }
  }

  /** What a tick of an idle, connected worker does. */
  lemma TickStarts(c: Config, w: World, tick: Timed)
    requires Safe(c, w) && Idle(c, w) && tick.event == WorkerTick(true) && Enabled(w, tick)
    ensures var w1 := Step(c, w, tick);
            && w1.desk == w.desk && w1.worker.status == READY
            && match FirstDue(w.desk.mail) {
               case None => w1.worker == w.worker && Pending(w.desk.mail) == {}
               case Some(k) =>
                 && k in Pending(w.desk.mail)
                 && (forall j :: w1.worker.flags.Has(j) ==> j == k)
                 && (exists f :: f in w1.worker.inFlight && f.kind == k && f.issued == tick.time)
                 && (forall f :: f in w1.worker.inFlight ==> f in w.worker.inFlight || f.kind == k)
               }
  {
    var first := FirstDue(w.desk.mail);
    if first.Some? {
      FetchesAre(c, first.value, tick.time);
    }
  }

  lemma NoFlagIsIdle(flags: Flags)
    requires forall k :: !flags.Has(k)
    ensures !flags.Downloading()
  {
    assert !flags.Has(ACCOUNT) && !flags.Has(ORDERS) && !flags.Has(TRADES);
  }

  /** One round settles the first kind that is due, in the order account, orders, trades; it leaves
      the stream idle again; and if nothing else was out, it settles nothing else. */
  lemma RoundSettles(c: Config, w: World, events: seq<Timed>)
    requires Safe(c, w) && Idle(c, w) && IsRound(c, w, events)
    ensures var w' := Run(c, w, events);
            && Safe(c, w') && Idle(c, w')
            && match FirstDue(w.desk.mail) {
               case None => Pending(w'.desk.mail) == {}
               case Some(k) =>
                 && k in Pending(w.desk.mail)
                 && Pending(w'.desk.mail) <= Pending(w.desk.mail) - {k}
                 && (w.worker.inFlight == [] ==> Pending(w'.desk.mail) == Pending(w.desk.mail) - {k})
               }
  {
    hide Safe, Step, Pending, FirstDue;
    var tick := events[0];
    var w1 := Step(c, w, tick);
    var w' := Run(c, w, events);
    StepSafe(c, w, tick);
    RunSafe(c, w1, events[1..]);
    AcksSettle(c, w1, events[1..]);
    TickStarts(c, w, tick);
    if FirstDue(w.desk.mail).Some? {
      var f :| f in w1.worker.inFlight && f.kind == FirstDue(w.desk.mail).value && f.issued == tick.time;
      assert f !in w'.worker.inFlight;
    } else {
      assert forall k :: !w1.worker.flags.Has(k);
    }
    NoFlagIsIdle(w'.worker.flags);
  }

  ghost predicate Rounds(c: Config, w: World, rounds: seq<seq<Timed>>)
    decreases |rounds|
  {
    rounds != [] ==> IsRound(c, w, rounds[0]) && Rounds(c, Run(c, w, rounds[0]), rounds[1..])
  }

  ghost function RunRounds(c: Config, w: World, rounds: seq<seq<Timed>>): World
    requires Rounds(c, w, rounds)
    decreases |rounds|
  {
    if rounds == [] then w else RunRounds(c, Run(c, w, rounds[0]), rounds[1..])
  }

  /** As many rounds as there are kinds pending suffice to settle them all. */
  lemma {:induction false} DrainTerminates(c: Config, w: World, rounds: seq<seq<Timed>>)
    requires Safe(c, w) && Idle(c, w) && Rounds(c, w, rounds) && |Pending(w.desk.mail)| <= |rounds|
    ensures Pending(RunRounds(c, w, rounds).desk.mail) == {}
    decreases |rounds|
  {
    if rounds != [] {
      var w' := Run(c, w, rounds[0]);
      RoundSettles(c, w, rounds[0]);
      if FirstDue(w.desk.mail).Some? {
        var k := FirstDue(w.desk.mail).value;
        Cardinality(Pending(w'.desk.mail), Pending(w.desk.mail) - {k});
      }
      DrainTerminates(c, w', rounds[1..]);
    }
  }

  lemma {:induction false} Cardinality<T>(a: set<T>, b: set<T>)
    requires a <= b
    ensures |a| <= |b|
  {
    if a != {} {
      var x :| x in a;
      Cardinality(a - {x}, b - {x});
    }
  }
}
