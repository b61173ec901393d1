/** The drop copy of a margin account, step by step: how it gets from stage to stage, what it publishes on
    the way, and how it comes by a new listen token. */
module MarginDrop {
  import opened Accounts
  import opened Wrappers
  import opened Mailbox
  import opened Margin
  import opened MarginRun

  /** The published status belongs to the stage. */
  predicate Tells(drop: Drop) {
    match drop.stage
    case UNDEFINED => drop.status == DISCONNECTED
    case SESSION_LOGON => drop.status == LOGIN_SENT
    case DONE => drop.status == READY
    case _ => drop.status == DOWNLOADING
  }

  predicate SeatTells(s: Seat) {
    s.marginDrop.Some? ==> Tells(s.marginDrop.value)
  }

  /** The stage after an event. Each stage has one event that ends it: a successful logon, a successful
      subscription, and the two checks, each of them only if the answer is newer than the request. Being
      ready and being lost lead to the first stage and out of all of them. A tick is not among them. */
  lemma StageTable(c: Config, s: Seat, e: SeatEvent, time: int)
    requires Enabled(s, e) && s.marginDrop.Some? && SeatTells(s) && s.mode != PORTFOLIO
    ensures var t, stage := SeatStep(c, s, e, time), s.marginDrop.value.stage;
            && t.marginDrop.Some? && SeatTells(t)
            && t.marginDrop.value.stage ==
               if e == DropLost then Stage.UNDEFINED
               else if e == DropReady then SESSION_LOGON
               else if e == DropLogon(200) && stage == SESSION_LOGON then USER_DATA_STREAM_SUBSCRIBE
               else if e == DropSubscribe(200) && stage == USER_DATA_STREAM_SUBSCRIBE then ACCOUNT_STAGE
               else if e == DropCheck(ACCOUNT_CHECK) && stage == ACCOUNT_STAGE && s.mail.accountCross.request < s.mail.accountCross.respond
               then ORDERS_STAGE
               else if e == DropCheck(ORDERS_CHECK) && stage == ORDERS_STAGE && s.mail.ordersCross.request < s.mail.ordersCross.respond
               then DONE
               else stage
  {
    hide Mail.Ask, Mail.Answer, Flags.Set, FirstDue, Repeat;
  }

  /** What an event asks for: entering the account stage asks for the account, entering the orders stage for
      the orders, and the end of the event stream for a listen key, if there is a token to give up. Nothing
      else is asked for by any event of the account. */
  lemma Asks(c: Config, s: Seat, e: SeatEvent, time: int)
    requires Enabled(s, e) && s.marginDrop.Some? && SeatTells(s) && s.mode != PORTFOLIO && !s.portfolioDrop
    ensures var t, d := SeatStep(c, s, e, time), s.marginDrop.value;
            && t.mail.accountCross.request ==
               (if e == DropSubscribe(200) && d.stage == USER_DATA_STREAM_SUBSCRIBE then time else s.mail.accountCross.request)
            && t.mail.ordersCross.request ==
               (if t.marginDrop.value.stage == ORDERS_STAGE && d.stage == ACCOUNT_STAGE then time else s.mail.ordersCross.request)
            && t.mail.listenKeyCross.request ==
               (if e == DropTerminated && d.listenToken != "" then time else s.mail.listenKeyCross.request)
            && forall k :: k !in {ACCOUNT_CROSS, ORDERS_CROSS, LISTEN_KEY_CROSS} ==> t.mail.At(k).request == s.mail.At(k).request
  {
    hide Flags.Set, FirstDue, Repeat;
  }

  /** The token is given up when the event stream has ended, and replaced by the key that a callback brings;
      the wait for it begins with the former and ends with the first check after an answer. */
  lemma Token(c: Config, s: Seat, e: SeatEvent, time: int)
    requires Enabled(s, e) && s.marginDrop.Some? && SeatTells(s) && s.mode != PORTFOLIO
    ensures var t, d := SeatStep(c, s, e, time), s.marginDrop.value;
            var key := e.FetchAck? && e.ok && s.worker.inFlight[e.i].slot == Download(LISTEN_KEY_CROSS);
            var answered := s.mail.listenKeyCross.request < s.mail.listenKeyCross.respond;
            && t.marginDrop.Some?
            && t.marginDrop.value.listenToken == (if key then e.listenKey else if e == DropTerminated then "" else d.listenToken)
            && t.marginDrop.value.downloadListenToken ==
               if e == DropTerminated then d.listenToken != "" || d.downloadListenToken
               else if answered && (e == DropCheck(LISTEN_KEY_CHECK) || (e == DropTick(true) && d.stage == DONE)) then false
               else d.downloadListenToken
  {
    hide Mail.Ask, Mail.Answer, Flags.Set, FirstDue, Repeat;
  }

  /** A drop copy is created by the first key that a callback brings, and only then; it starts out with that
      key as its token. */
  lemma Created(c: Config, s: Seat, e: SeatEvent, time: int)
    requires Enabled(s, e) && s.marginDrop.None? && s.mode != PORTFOLIO
    ensures var t := SeatStep(c, s, e, time);
            var key := e.FetchAck? && e.ok && s.worker.inFlight[e.i].slot == Download(LISTEN_KEY_CROSS);
            t.marginDrop == if key then Some(Drop(DISCONNECTED, Stage.UNDEFINED, e.listenKey, false, 0)) else None
  {
    hide Mail.Ask, Mail.Answer, Flags.Set, FirstDue, Repeat;
  }

  /** The way back to a token: the end of the event stream, the next tick of an idle order-entry stream, the
      callback of the request that this tick has sent, and a check. The token is the new key, the wait is
      over, and the order-entry stream is where it was. */
  lemma TokenRenewed(c: Config, s: Seat, key: string, times: seq<int>, timerNow: int)
    requires s.mode != PORTFOLIO && Isolated(s) && s.marginDrop.Some? && s.marginDrop.value.listenToken != "" && Idle(s.worker)
    requires |times| == 4 && s.mail.listenKeyCross.respond < times[0] < times[1] < times[2] < times[3]
    ensures var s1 := SeatStep(c, s, DropTerminated, times[0]);
            && s1.marginDrop.Some?
            && var s2 := SeatStep(c, s1, WorkerTick(true, timerNow), times[1]);
            && s2.worker.inFlight == s.worker.inFlight + [MarginFetch(Download(LISTEN_KEY_CROSS), times[1])]
            && var s3 := SeatStep(c, s2, FetchAck(|s.worker.inFlight|, true, key), times[2]);
            && s3.marginDrop.Some?
            && var s4 := SeatStep(c, s3, DropCheck(LISTEN_KEY_CHECK), times[3]);
            && s4.marginDrop == Some(s.marginDrop.value.(listenToken := key, downloadListenToken := false))
            && s4.worker.flags == s.worker.flags && s4.worker.inFlight == s.worker.inFlight
  {
    var s1 := SeatStep(c, s, DropTerminated, times[0]);
    assert s1.mail.At(TRADES_CROSS) == s.mail.At(TRADES_CROSS);
    assert Isolated(s1);
    TickStarts(c, s1, true, times[1], timerNow);
    var s2 := SeatStep(c, s1, WorkerTick(true, timerNow), times[1]);
    var i := |s.worker.inFlight|;
    assert s2.worker.inFlight[..i] + s2.worker.inFlight[i + 1..] == s.worker.inFlight;
    assert s2.worker.flags.Set(Download(LISTEN_KEY_CROSS), false) == s.worker.flags;
    hide Isolated, FirstDue, WorkerTimer, Flags.Set, Flags.Has, Mail.With, Idle;
  }

  // --- over runs

  ghost predicate WorldTells(w: World) {
    forall a :: a in w.seats ==>
      && SeatTells(w.seats[a])
      && (w.seats[a].mode != PORTFOLIO ==> (w.seats[a].marginDrop.Some? <==> w.seats[a].worker.hasListenKeyCross))
  }

  lemma SeatStepTells(c: Config, s: Seat, e: SeatEvent, now: int, time: int)
    requires SeatSafe(s, now) && Enabled(s, e) && SeatTells(s)
    requires s.mode != PORTFOLIO ==> (s.marginDrop.Some? <==> s.worker.hasListenKeyCross)
    ensures var t := SeatStep(c, s, e, time);
            SeatTells(t) && (s.mode != PORTFOLIO ==> (t.marginDrop.Some? <==> t.worker.hasListenKeyCross))
  {
    if s.mode != PORTFOLIO {
      ExpandSafe(s, now);
      hide Mail.Ask, Mail.Answer, Flags.Set, Flags.Has, FirstDue, Repeat, SeatSafe;
    }
  }

  lemma {:induction false} RunTells(c: Config, w: World, events: seq<Timed>)
    requires Safe(w) && WorldTells(w) && Feasible(c, w, events)
    ensures WorldTells(Run(c, w, events))
    decreases |events|
  {
    hide SeatSafe, SeatStep, Enabled, SeatTells;
    if events != [] {
      var e := events[0];
      SeatStepSafe(c, w.seats[e.account], e.event, w.now, e.time);
      SeatStepTells(c, w.seats[e.account], e.event, w.now, e.time);
      RunSafe(c, w, [e]);
      assert [e][1..] == [];
      assert Run(c, w, [e]) == Step(c, w, e);
      RunTells(c, Step(c, w, e), events[1..]);
    }
  }

  /** In every state of every run the status that a margin drop copy publishes tells its stage: DISCONNECTED
      without one, LOGIN_SENT while logging on, READY when the download is done, DOWNLOADING in between.
      There is a drop copy if and only if the order-entry stream has had a listen key. */
  lemma StatusTellsStage(c: Config, modes: map<string, MarginMode>, events: seq<Timed>, account: string)
    requires Feasible(c, Initial(modes), events) && account in modes && modes[account] != PORTFOLIO
    ensures account in Run(c, Initial(modes), events).seats
    ensures var s := Run(c, Initial(modes), events).seats[account];
            && (s.marginDrop.Some? <==> s.worker.hasListenKeyCross)
            && (s.marginDrop.Some? ==>
                  var drop := s.marginDrop.value;
                  && (drop.status == DISCONNECTED <==> drop.stage == Stage.UNDEFINED)
                  && (drop.status == LOGIN_SENT <==> drop.stage == SESSION_LOGON)
                  && (drop.status == READY <==> drop.stage == DONE))
  {
    var w := Initial(modes);
    NoFlags(NO_FLAGS);
    assert Safe(w) && WorldTells(w);
    hide SeatSafe, SeatStep, Enabled, Initial, Feasible, Run;
    RunSafe(c, w, events);
    RunTells(c, w, events);
  }
}
