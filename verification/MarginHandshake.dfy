/** The handshake between the two streams of a margin account: what a check of the drop copy can rely on,
    and that its timer alone never gets to rely on anything. */
module MarginHandshake {
  import opened Accounts
  import opened Wrappers
  import opened Mailbox
  import opened Margin
  import opened MarginRun

  /** When the response field of kind k was last set by a callback; zero means never. */
  function LatestAck(acks: seq<MarginAck>, k: Kind): int {
    if acks == [] then 0
    else if StampedKind(acks[|acks| - 1].slot) == k then acks[|acks| - 1].handled
    else LatestAck(acks[..|acks| - 1], k)
  }

  lemma {:induction false} LatestAckIsAck(acks: seq<MarginAck>, k: Kind)
    ensures LatestAck(acks, k) != 0 ==> exists a :: a in acks && StampedKind(a.slot) == k && a.handled == LatestAck(acks, k)
  {
    if acks != [] {
      LatestAckIsAck(acks[..|acks| - 1], k);
      assert acks[|acks| - 1] in acks;
    }
  }

  /** A callback that stamps the cross account came between the two requests of the drop copy. */
  ghost predicate AccountServed(s: Seat) {
    exists a :: a in s.worker.acks && StampedKind(a.slot) == ACCOUNT_CROSS
                && s.mail.accountCross.request < a.handled < s.mail.ordersCross.request
  }

  ghost predicate OrdersServed(s: Seat) {
    exists a :: a in s.worker.acks && a.slot == Download(ORDERS_CROSS) && s.mail.ordersCross.request < a.handled
  }

  ghost predicate LogTimely(s: Seat, now: int) {
    && (forall k :: s.mail.At(k).request == s.mail.At(k).respond ==> s.mail.At(k) == NEVER)
    && (forall k :: s.mail.At(k).respond == LatestAck(s.worker.acks, k))
    && (forall f :: f in s.worker.inFlight ==> f.issued <= now)
    && (forall a :: a in s.worker.acks ==> 0 < a.handled <= now && a.issued <= now)
  }

  ghost predicate DropTimely(s: Seat, now: int) {
    s.marginDrop.Some? ==>
      var drop := s.marginDrop.value;
      && drop.entered <= now
      && (drop.stage == ACCOUNT_STAGE ==> 0 < drop.entered && s.mail.accountCross.request == drop.entered)
      && (drop.stage == ORDERS_STAGE ==> s.mail.ordersCross.request == drop.entered && AccountServed(s))
      && (drop.stage == DONE ==> AccountServed(s) && OrdersServed(s))
  }

  ghost predicate Timely(s: Seat, now: int) {
    s.mode == PORTFOLIO || (LogTimely(s, now) && DropTimely(s, now))
  }

  // --- kept by every step

  lemma LatestAppend(acks: seq<MarginAck>, a: MarginAck, k: Kind)
    ensures LatestAck(acks + [a], k) == if StampedKind(a.slot) == k then a.handled else LatestAck(acks, k)
  {
    assert (acks + [a])[..|acks|] == acks;
  }

  /** What a callback does to the mailbox and the log. */
  lemma AckIs(c: Config, s: Seat, i: nat, ok: bool, listenKey: string, time: int)
    requires s.mode != PORTFOLIO && i < |s.worker.inFlight|
    ensures var slot := s.worker.inFlight[i].slot;
            var t := SeatStep(c, s, FetchAck(i, ok, listenKey), time);
            && t.mail == s.mail.Answer(StampedKind(slot), time)
            && t.worker.acks == s.worker.acks + [MarginAck(slot, s.worker.inFlight[i].issued, time)]
            && t.worker.inFlight == s.worker.inFlight[..i] + s.worker.inFlight[i + 1..]
            && t.worker.flags == s.worker.flags.Set(slot, false)
            && t.mode == s.mode
  {
    hide Flags.Set, Mail.Answer;
  }

  lemma AckLog(c: Config, s: Seat, i: nat, ok: bool, listenKey: string, now: int, time: int)
    requires s.mode != PORTFOLIO && SeatSafe(s, now) && LogTimely(s, now) && 0 <= now < time && i < |s.worker.inFlight|
    ensures LogTimely(SeatStep(c, s, FetchAck(i, ok, listenKey), time), time)
  {
    var fetch := s.worker.inFlight[i];
    AckIs(c, s, i, ok, listenKey, time);
    RemoveKeeps(s.worker.inFlight, i);
    hide SeatStep, LatestAck, StampedKind, Mail.Answer;
    forall k
      ensures LatestAck(s.worker.acks + [MarginAck(fetch.slot, fetch.issued, time)], k) ==
              if StampedKind(fetch.slot) == k then time else LatestAck(s.worker.acks, k)
    {
      LatestAppend(s.worker.acks, MarginAck(fetch.slot, fetch.issued, time), k);
    }
  }

  lemma TickLog(c: Config, s: Seat, linkUp: bool, timerNow: int, now: int, time: int)
    requires s.mode != PORTFOLIO && SeatSafe(s, now) && LogTimely(s, now) && 0 <= now < time
    ensures LogTimely(SeatStep(c, s, WorkerTick(linkUp, timerNow), time), time)
  {
    hide Flags.Set, Flags.Has;
    forall slot
      ensures forall n: nat :: forall f :: f in Repeat(MarginFetch(slot, time), n) ==> f.issued <= time
    {
      forall n: nat
        ensures forall f :: f in Repeat(MarginFetch(slot, time), n) ==> f.issued <= time
      {
        RepeatIs(MarginFetch(slot, time), n);
      }
    }
  }

  /** The drop copy asks at most once in a step. */
  lemma AskLog(s: Seat, t: Seat, k: Kind, now: int, time: int)
    requires s.mode != PORTFOLIO && SeatSafe(s, now) && LogTimely(s, now) && 0 <= now < time
    requires t.mail in {s.mail, s.mail.Ask(k, time)} && t == s.(mail := t.mail, marginDrop := t.marginDrop)
    ensures LogTimely(t, time)
  {
    hide LatestAck;
  }

  lemma StepLog(c: Config, s: Seat, e: SeatEvent, now: int, time: int)
    requires s.mode != PORTFOLIO && SeatSafe(s, now) && LogTimely(s, now) && Enabled(s, e) && 0 <= now < time
    ensures LogTimely(SeatStep(c, s, e, time), time)
  {
    if e.FetchAck? {
      AckLog(c, s, e.i, e.ok, e.listenKey, now, time);
    } else if e.WorkerTick? {
      TickLog(c, s, e.linkUp, e.timerNow, now, time);
    } else if e.WorkerConnect? || e.WorkerStatus? || e.WorkerLost? {
      hide LatestAck;
    } else if e.PortfolioRequest? || e.PortfolioListenKey? || e.PortfolioRespond? {
      ExpandSafe(s, now);
    } else {
      hide LogTimely, SeatSafe;
      var k := if e.DropTerminated? then LISTEN_KEY_CROSS else if e.DropSubscribe? then ACCOUNT_CROSS else ORDERS_CROSS;
      AskLog(s, SeatStep(c, s, e, time), k, now, time);
    }
  }

  // --- the stages

  lemma AccountServedLater(s: Seat, t: Seat)
    requires AccountServed(s) && s.worker.acks <= t.worker.acks
    requires t.mail.accountCross.request == s.mail.accountCross.request && t.mail.ordersCross.request == s.mail.ordersCross.request
    ensures AccountServed(t)
  {
    var a :| a in s.worker.acks && StampedKind(a.slot) == ACCOUNT_CROSS
             && s.mail.accountCross.request < a.handled < s.mail.ordersCross.request;
    assert a in t.worker.acks;
  }

  lemma OrdersServedLater(s: Seat, t: Seat)
    requires OrdersServed(s) && s.worker.acks <= t.worker.acks && t.mail.ordersCross.request == s.mail.ordersCross.request
    ensures OrdersServed(t)
  {
    var a :| a in s.worker.acks && a.slot == Download(ORDERS_CROSS) && s.mail.ordersCross.request < a.handled;
    assert a in t.worker.acks;
  }

  /** A step of which the stage takes no notice. */
  lemma StageKeeps(s: Seat, t: Seat, now: int, time: int)
    requires DropTimely(s, now) && now < time && s.worker.acks <= t.worker.acks
    requires t.mail.accountCross.request == s.mail.accountCross.request && t.mail.ordersCross.request == s.mail.ordersCross.request
    requires t.marginDrop.Some? ==>
               || (t.marginDrop.value.stage !in {ACCOUNT_STAGE, ORDERS_STAGE, DONE} && t.marginDrop.value.entered <= now)
               || (s.marginDrop.Some? && t.marginDrop.value.stage == s.marginDrop.value.stage
                   && t.marginDrop.value.entered == s.marginDrop.value.entered)
    ensures DropTimely(t, time)
  {
    hide AccountServed, OrdersServed;
    if AccountServed(s) {
      AccountServedLater(s, t);
    }
    if OrdersServed(s) {
      OrdersServedLater(s, t);
    }
  }

  /** A check that succeeds has a callback to show for it. */
  lemma CheckedBy(s: Seat, k: Kind, now: int)
    requires s.mode != PORTFOLIO && SeatSafe(s, now) && LogTimely(s, now) && s.mail.At(k).request < s.mail.At(k).respond
    ensures exists a :: a in s.worker.acks && StampedKind(a.slot) == k && s.mail.At(k).request < a.handled <= now
  {
    LatestAckIsAck(s.worker.acks, k);
  }

  lemma AccountChecked(c: Config, s: Seat, now: int, time: int)
    requires s.mode != PORTFOLIO && SeatSafe(s, now) && LogTimely(s, now) && DropTimely(s, now) && 0 <= now < time && s.marginDrop.Some?
    ensures DropTimely(WithDesk(s, CheckAccount(Desk(s.mail, s.marginDrop.value), time)), time)
  {
    var t := WithDesk(s, CheckAccount(Desk(s.mail, s.marginDrop.value), time));
    if t.marginDrop == s.marginDrop {
      StageKeeps(s, t, now, time);
    } else {
      CheckedBy(s, ACCOUNT_CROSS, now);
      assert AccountServed(t);
    }
  }

  lemma OrdersChecked(c: Config, s: Seat, now: int, time: int)
    requires s.mode != PORTFOLIO && SeatSafe(s, now) && LogTimely(s, now) && DropTimely(s, now) && 0 <= now < time && s.marginDrop.Some?
    ensures DropTimely(WithDesk(s, CheckOrders(Desk(s.mail, s.marginDrop.value))), time)
  {
    var t := WithDesk(s, CheckOrders(Desk(s.mail, s.marginDrop.value)));
    if t.marginDrop == s.marginDrop {
      StageKeeps(s, t, now, time);
    } else {
      CheckedBy(s, ORDERS_CROSS, now);
      assert OrdersServed(t);
      AccountServedLater(s, t);
    }
  }

  /** The stage that a timer enters cannot be over yet, so a timer is one check at most, apart from the one
      of the listen key. */
  lemma TickIs(s: Seat, linkUp: bool, now: int, time: int)
    requires s.mode != PORTFOLIO && SeatSafe(s, now) && now < time && s.marginDrop.Some?
    ensures var desk := Desk(s.mail, s.marginDrop.value);
            DropTimer(desk, linkUp, time) in {
              desk, CheckListenKey(desk), CheckAccount(CheckListenKey(desk), time), CheckOrders(CheckListenKey(desk))}
  {
    assert s.mail.At(ORDERS_CROSS).respond <= now;
  }

  lemma ListenKeyChecked(s: Seat)
    requires s.marginDrop.Some?
    ensures var desk := CheckListenKey(Desk(s.mail, s.marginDrop.value));
            && desk.mail == s.mail
            && desk.drop == s.marginDrop.value.(downloadListenToken := desk.drop.downloadListenToken)
  {
  }

  lemma TickStage(c: Config, s: Seat, linkUp: bool, now: int, time: int)
    requires s.mode != PORTFOLIO && SeatSafe(s, now) && LogTimely(s, now) && DropTimely(s, now) && 0 <= now < time && s.marginDrop.Some?
    ensures DropTimely(SeatStep(c, s, DropTick(linkUp), time), time)
  {
    hide SeatSafe, LogTimely, DropTimely, CheckAccount, CheckOrders, CheckListenKey, DropTimer;
    TickIs(s, linkUp, now, time);
    ListenKeyChecked(s);
    var desk := CheckListenKey(Desk(s.mail, s.marginDrop.value));
    var u := WithDesk(s, desk);
    OtherToken(s, u, now);
    StageKeeps(s, s, now, time);
    StageKeeps(u, u, now, time);
    AccountChecked(c, u, now, time);
    OrdersChecked(c, u, now, time);
  }

  lemma OtherToken(s: Seat, u: Seat, now: int)
    requires s.mode != PORTFOLIO && SeatSafe(s, now) && LogTimely(s, now) && DropTimely(s, now) && s.marginDrop.Some? && u.marginDrop.Some?
    requires u == s.(marginDrop := Some(s.marginDrop.value.(downloadListenToken := u.marginDrop.value.downloadListenToken)))
    ensures SeatSafe(u, now) && LogTimely(u, now) && DropTimely(u, now)
  {
  }

  lemma StepStage(c: Config, s: Seat, e: SeatEvent, now: int, time: int)
    requires s.mode != PORTFOLIO && SeatSafe(s, now) && LogTimely(s, now) && DropTimely(s, now) && Enabled(s, e) && 0 <= now < time
    ensures DropTimely(SeatStep(c, s, e, time), time)
  {
    hide SeatSafe, LogTimely, DropTimely;
    if e.DropTick? {
      TickStage(c, s, e.linkUp, now, time);
    } else if e == DropCheck(ACCOUNT_CHECK) {
      AccountChecked(c, s, now, time);
    } else if e == DropCheck(ORDERS_CHECK) {
      OrdersChecked(c, s, now, time);
    } else if e.DropSubscribe? {
      SubscribedStage(c, s, e.code, now, time);
    } else if e.FetchAck? {
      AckStage(c, s, e.i, e.ok, e.listenKey, now, time);
    } else {
      OtherStage(c, s, e, now, time);
    }
  }

  lemma SubscribedStage(c: Config, s: Seat, code: int, now: int, time: int)
    requires s.mode != PORTFOLIO && DropTimely(s, now) && 0 <= now < time && s.marginDrop.Some?
    ensures DropTimely(SeatStep(c, s, DropSubscribe(code), time), time)
  {
    if code != 200 || s.marginDrop.value.stage != USER_DATA_STREAM_SUBSCRIBE {
      StageKeeps(s, s, now, time);
    }
  }

  lemma AckStage(c: Config, s: Seat, i: nat, ok: bool, listenKey: string, now: int, time: int)
    requires s.mode != PORTFOLIO && DropTimely(s, now) && 0 <= now < time && i < |s.worker.inFlight|
    ensures DropTimely(SeatStep(c, s, FetchAck(i, ok, listenKey), time), time)
  {
    AckIs(c, s, i, ok, listenKey, time);
    var t := SeatStep(c, s, FetchAck(i, ok, listenKey), time);
    assert t.mail.At(ACCOUNT_CROSS).request == s.mail.At(ACCOUNT_CROSS).request;
    assert t.mail.At(ORDERS_CROSS).request == s.mail.At(ORDERS_CROSS).request;
    hide DropTimely, Flags.Set, Mail.Answer;
    StageKeeps(s, t, now, time);
  }

  lemma OtherStage(c: Config, s: Seat, e: SeatEvent, now: int, time: int)
    requires s.mode != PORTFOLIO && SeatSafe(s, now) && DropTimely(s, now) && Enabled(s, e) && 0 <= now < time
    requires !e.DropTick? && e != DropCheck(ACCOUNT_CHECK) && e != DropCheck(ORDERS_CHECK) && !e.DropSubscribe? && !e.FetchAck?
    ensures DropTimely(SeatStep(c, s, e, time), time)
  {
    ExpandSafe(s, now);
    assert !s.portfolioDrop;
    var t := SeatStep(c, s, e, time);
    assert s.marginDrop.Some? ==> s.marginDrop.value.entered <= now;
    hide SeatSafe, DropTimely, Flags.Set, FirstDue;
    StageKeeps(s, t, now, time);
  }

  // --- over a run

  lemma SeatStepTimely(c: Config, s: Seat, e: SeatEvent, now: int, time: int)
    requires SeatSafe(s, now) && Timely(s, now) && Enabled(s, e) && 0 <= now < time
    ensures SeatSafe(SeatStep(c, s, e, time), time) && Timely(SeatStep(c, s, e, time), time)
    ensures SeatStep(c, s, e, time).mode == s.mode
  {
    hide SeatSafe, LogTimely, DropTimely;
    SeatStepSafe(c, s, e, now, time);
    if s.mode != PORTFOLIO {
      StepLog(c, s, e, now, time);
      StepStage(c, s, e, now, time);
    }
  }

  lemma StaysTimely(s: Seat, now: int, time: int)
    requires Timely(s, now) && now < time
    ensures Timely(s, time)
  {
  }

  ghost predicate AllTimely(w: World) {
    w.now >= 0 && Safe(w) && forall a :: a in w.seats ==> Timely(w.seats[a], w.now)
  }

  lemma StepTimely(c: Config, w: World, e: Timed)
    requires AllTimely(w) && w.now < e.time && e.account in w.seats && Enabled(w.seats[e.account], e.event)
    ensures AllTimely(Step(c, w, e)) && Step(c, w, e).seats.Keys == w.seats.Keys
    ensures forall a :: a in w.seats ==> Step(c, w, e).seats[a].mode == w.seats[a].mode
  {
    hide SeatSafe, Timely, SeatStep, Enabled;
    SeatStepTimely(c, w.seats[e.account], e.event, w.now, e.time);
    forall a | a in w.seats && a != e.account
      ensures SeatSafe(w.seats[a], e.time) && Timely(w.seats[a], e.time)
    {
      StaysSafe(w.seats[a], w.now, e.time);
      StaysTimely(w.seats[a], w.now, e.time);
    }
  }

  lemma {:induction false} RunTimely(c: Config, w: World, events: seq<Timed>)
    requires AllTimely(w) && Feasible(c, w, events)
    ensures AllTimely(Run(c, w, events)) && Run(c, w, events).seats.Keys == w.seats.Keys
    ensures forall a :: a in w.seats ==> Run(c, w, events).seats[a].mode == w.seats[a].mode
    decreases |events|
  {
    hide AllTimely, SeatStep, Step, Enabled;
    if events != [] {
      StepTimely(c, w, events[0]);
      RunTimely(c, Step(c, w, events[0]), events[1..]);
    }
  }

  lemma InitiallyTimely(modes: map<string, MarginMode>)
    ensures AllTimely(Initial(modes))
  {
    NoFlags(NO_FLAGS);
    forall k
      ensures EMPTY.At(k) == NEVER
    {
    }
  }

  // --- main results

  predicate IsCheck(e: SeatEvent) {
    e.DropTick? || e.DropCheck?
  }

  /** What a step of the drop copy ends is accounted for by a callback that was handled strictly after the
      request: the account stage by one that stamps the cross account, the orders stage by one of the orders,
      the wait for a listen key by one of the listen key. */
  ghost predicate Accounted(s: Seat, before: Drop, after: Drop) {
    && (before.stage == ACCOUNT_STAGE && after.stage != ACCOUNT_STAGE ==>
          && s.mail.accountCross.request == before.entered
          && exists a :: a in s.worker.acks && StampedKind(a.slot) == ACCOUNT_CROSS && before.entered < a.handled)
    && (before.stage == ORDERS_STAGE && after.stage != ORDERS_STAGE ==>
          && s.mail.ordersCross.request == before.entered
          && exists a :: a in s.worker.acks && a.slot == Download(ORDERS_CROSS) && before.entered < a.handled)
    && (before.downloadListenToken && !after.downloadListenToken ==>
          exists a :: a in s.worker.acks && a.slot == Download(LISTEN_KEY_CROSS) && s.mail.listenKeyCross.request < a.handled)
  }

  /** The handshake: in every run, whatever a check ends, called by the timer or directly, is accounted for.
      For the account that may be the callback of a poll. */
  lemma Handshake(c: Config, modes: map<string, MarginMode>, events: seq<Timed>, account: string, e: SeatEvent, time: int)
    requires Feasible(c, Initial(modes), events)
    requires var w := Run(c, Initial(modes), events);
             account in w.seats && Enabled(w.seats[account], e) && IsCheck(e) && w.now < time
    ensures var s := Run(c, Initial(modes), events).seats[account];
            var t := SeatStep(c, s, e, time);
            s.marginDrop.Some? && t.marginDrop.Some? && Accounted(s, s.marginDrop.value, t.marginDrop.value)
  {
    hide SeatSafe, Timely, SeatStep, Accounted, Enabled;
    InitiallyTimely(modes);
    RunTimely(c, Initial(modes), events);
    var w := Run(c, Initial(modes), events);
    SeatHandshake(c, w.seats[account], e, w.now, time);
  }

  lemma SeatHandshake(c: Config, s: Seat, e: SeatEvent, now: int, time: int)
    requires SeatSafe(s, now) && Timely(s, now) && Enabled(s, e) && IsCheck(e) && now < time
    ensures var t := SeatStep(c, s, e, time);
            s.marginDrop.Some? && t.marginDrop.Some? && Accounted(s, s.marginDrop.value, t.marginDrop.value)
  {
    assert s.mode != PORTFOLIO;
    forall k | s.mail.At(k).request < s.mail.At(k).respond
      ensures exists a :: a in s.worker.acks && StampedKind(a.slot) == k && s.mail.At(k).request < a.handled <= now
    {
      CheckedBy(s, k, now);
    }
    StageEntries(s, now);
    if e.DropTick? {
      TickIs(s, e.linkUp, now, time);
    }
    assert s.mail.At(ACCOUNT_CROSS) == s.mail.accountCross && s.mail.At(ORDERS_CROSS) == s.mail.ordersCross;
    assert s.mail.At(LISTEN_KEY_CROSS) == s.mail.listenKeyCross;
    hide SeatSafe, Timely, LatestAck, DropTimer, Mail.At;
  }

  lemma StageEntries(s: Seat, now: int)
    requires s.mode != PORTFOLIO && Timely(s, now) && s.marginDrop.Some?
    ensures s.marginDrop.value.stage == ACCOUNT_STAGE ==> s.mail.accountCross.request == s.marginDrop.value.entered
    ensures s.marginDrop.value.stage == ORDERS_STAGE ==> s.mail.ordersCross.request == s.marginDrop.value.entered
  {
  }

  /** A completed download of the margin drop copy was served: a callback that stamps the cross account
      between its two requests, and one of the orders after the second. */
  lemma CompletedDownloadWasServed(c: Config, modes: map<string, MarginMode>, events: seq<Timed>, account: string)
    requires Feasible(c, Initial(modes), events) && account in Run(c, Initial(modes), events).seats
    ensures var s := Run(c, Initial(modes), events).seats[account];
            s.marginDrop.Some? && s.marginDrop.value.stage == DONE ==>
              exists a, b :: && a in s.worker.acks && StampedKind(a.slot) == ACCOUNT_CROSS
                             && b in s.worker.acks && b.slot == Download(ORDERS_CROSS)
                             && s.mail.accountCross.request < a.handled < s.mail.ordersCross.request < b.handled
  {
    InitiallyTimely(modes);
    RunTimely(c, Initial(modes), events);
    var w := Run(c, Initial(modes), events);
    assert SeatSafe(w.seats[account], w.now);
  }

  /** The drop copy of an account has never got past the account stage. */
  predicate NeverChecked(s: Seat) {
    && s.mail.ordersCross.request == 0
    && (s.marginDrop.Some? ==> s.marginDrop.value.stage !in {ORDERS_STAGE, DONE} && s.marginDrop.value.status != READY)
  }

  lemma StepNeverChecked(c: Config, s: Seat, e: SeatEvent, time: int)
    requires Enabled(s, e) && !e.DropCheck? && NeverChecked(s)
    ensures NeverChecked(SeatStep(c, s, e, time))
  {
    hide Flags.Set, FirstDue;
    if e.FetchAck? {
      AckIs(c, s, e.i, e.ok, e.listenKey, time);
      assert SeatStep(c, s, e, time).mail.At(ORDERS_CROSS).request == s.mail.At(ORDERS_CROSS).request;
    }
  }

  lemma {:induction false} RunNeverChecked(c: Config, w: World, events: seq<Timed>)
    requires Feasible(c, w, events) && forall e :: e in events ==> !e.event.DropCheck?
    requires forall a :: a in w.seats ==> NeverChecked(w.seats[a])
    ensures var w' := Run(c, w, events);
            forall a :: a in w'.seats ==> NeverChecked(w'.seats[a])
    decreases |events|
  {
    hide SeatStep, Enabled, NeverChecked;
    if events != [] {
      assert events[0] in events;
      StepNeverChecked(c, w.seats[events[0].account], events[0].event, events[0].time);
      RunNeverChecked(c, Step(c, w, events[0]), events[1..]);
      assert Run(c, w, events) == Run(c, Step(c, w, events[0]), events[1..]);
    }
  }

  /** The gate in front of the checks, as for portfolio accounts: if nothing but the timer calls them, no
      margin drop copy ever gets past its account stage or publishes READY, and no orders are ever asked
      for or downloaded. */
  lemma TimerNeverEndsAStage(c: Config, modes: map<string, MarginMode>, events: seq<Timed>, account: string)
    requires Feasible(c, Initial(modes), events) && forall e :: e in events ==> !e.event.DropCheck?
    requires account in Run(c, Initial(modes), events).seats
    ensures var s := Run(c, Initial(modes), events).seats[account];
            NeverChecked(s) && !s.worker.flags.Has(Download(ORDERS_CROSS))
  {
    InitiallyTimely(modes);
    RunTimely(c, Initial(modes), events);
    RunNeverChecked(c, Initial(modes), events);
    var w := Run(c, Initial(modes), events);
    assert SeatSafe(w.seats[account], w.now) && NeverChecked(w.seats[account]);
    NeverRaised(w.seats[account], w.now);
  }

  lemma NeverRaised(s: Seat, now: int)
    requires SeatSafe(s, now) && NeverChecked(s)
    ensures !s.worker.flags.Has(Download(ORDERS_CROSS))
  {
    assert s.mode != PORTFOLIO ==> 0 <= s.mail.At(ORDERS_CROSS).respond;
  }
}
