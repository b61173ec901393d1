/** The poll of borrowed amounts stamps the response of the cross account, too. When that matters. */
module MarginPoll {
  import opened Accounts
  import opened Wrappers
  import opened Mailbox
  import opened Margin
  import opened MarginRun
  import opened MarginHandshake
  import opened MarginScript

  predicate Raised(s: Seat) {
    s.worker.flags.Has(ACCOUNT_SLOT)
  }

  predicate PollOut(s: Seat) {
    exists f :: f in s.worker.inFlight && f.slot == BORROWED
  }

  lemma BusyIsDownloading(flags: Flags, slot: Slot)
    requires flags.Has(slot)
    ensures flags.Downloading()
  {
  }

  /** As long as the flag is up no poll is started, and only a poll, or the download itself, can answer. */
  lemma StepWhileRaised(c: Config, s: Seat, e: SeatEvent, now: int, time: int)
    requires s.mode != PORTFOLIO && SeatSafe(s, now) && Enabled(s, e) && now < time
    requires Raised(s) && !PollOut(s) && s.mail.Due(ACCOUNT_CROSS)
    ensures var t := SeatStep(c, s, e, time);
            Raised(t) ==> !PollOut(t) && t.mail.Due(ACCOUNT_CROSS)
  {
    BusyIsDownloading(s.worker.flags, ACCOUNT_SLOT);
    ExpandSafe(s, now);
    assert !s.portfolioDrop;
    assert s.mail.At(ACCOUNT_CROSS).respond <= now;
    hide SeatSafe, Flags.Has, Flags.Set, Flags.Downloading, FirstDue;
    if e.FetchAck? {
      AckIs(c, s, e.i, e.ok, e.listenKey, time);
      RemoveKeeps(s.worker.inFlight, e.i);
      SetHasAt(s.worker.flags, s.worker.inFlight[e.i].slot, false, ACCOUNT_SLOT);
      assert s.worker.inFlight[e.i] in s.worker.inFlight;
    }
  }

  /** The flag of an account is up throughout a run. */
  ghost predicate StaysUp(c: Config, w: World, account: string, events: seq<Timed>)
    requires Feasible(c, w, events) && account in w.seats
    decreases |events|
  {
    && Raised(w.seats[account])
    && (events != [] ==> StaysUp(c, Step(c, w, events[0]), account, events[1..]))
  }

  ghost predicate IsDue(w: World, account: string) {
    account in w.seats && w.seats[account].mail.Due(ACCOUNT_CROSS)
  }

  /** Whatever happens, the download is still due as long as its flag is up. */
  ghost predicate AlwaysDue(c: Config, w: World, account: string)
    requires account in w.seats
  {
    forall events :: Feasible(c, w, events) && StaysUp(c, w, account, events) ==> IsDue(Run(c, w, events), account)
  }

  lemma {:induction false} NoPollKeepsDue(c: Config, w: World, account: string, events: seq<Timed>)
    requires Safe(w) && account in w.seats && w.seats[account].mode != PORTFOLIO
    requires !PollOut(w.seats[account]) && w.seats[account].mail.Due(ACCOUNT_CROSS)
    requires Feasible(c, w, events) && StaysUp(c, w, account, events)
    ensures IsDue(Run(c, w, events), account)
    decreases |events|
  {
    hide SeatStep, Enabled, PollOut, Raised;
    if events != [] {
      var e := events[0];
      var w1 := Step(c, w, e);
      if e.account == account {
        StepWhileRaised(c, w.seats[account], e.event, w.now, e.time);
      }
      OneStepSafe(c, w, e);
      assert StaysUp(c, w1, account, events[1..]);
      assert Raised(w1.seats[account]);
      NoPollKeepsDue(c, w1, account, events[1..]);
    }
  }

  lemma OneStepSafe(c: Config, w: World, e: Timed)
    requires Safe(w) && w.now < e.time && e.account in w.seats && Enabled(w.seats[e.account], e.event)
    ensures Safe(Step(c, w, e)) && forall a :: a in w.seats ==> Step(c, w, e).seats[a].mode == w.seats[a].mode
  {
    hide SeatSafe, SeatStep, Enabled;
    SeatStepSafe(c, w.seats[e.account], e.event, w.now, e.time);
    forall a | a in w.seats && a != e.account
      ensures SeatSafe(w.seats[a], e.time)
    {
      StaysSafe(w.seats[a], w.now, e.time);
    }
  }

  lemma NothingFatal(w: World)
    requires Safe(w)
    ensures forall a :: a in w.seats ==> !w.seats[a].fatal
  {
    forall a | a in w.seats
      ensures !w.seats[a].fatal
    {
      assert SeatSafe(w.seats[a], w.now);
    }
  }

  /** The callback of a poll answers, and leaves the flag alone. */
  lemma PollAnswers(c: Config, s: Seat, i: nat, now: int, time: int)
    requires s.mode != PORTFOLIO && SeatSafe(s, now) && now < time && Raised(s)
    requires i < |s.worker.inFlight| && s.worker.inFlight[i].slot == BORROWED
    ensures var t := SeatStep(c, s, FetchAck(i, true, ""), time);
            && Raised(t) && t.marginDrop == s.marginDrop && !t.mail.Due(ACCOUNT_CROSS)
            && t.mail.accountCross == Stamps(s.mail.accountCross.request, time)
  {
    AckIs(c, s, i, true, "", time);
    PollSettlesAccount(c, s, i, true, now, time);
    hide Flags.Has, Flags.Set;
    assert SeatStep(c, s, FetchAck(i, true, ""), time).mail.At(ACCOUNT_CROSS) == Stamps(s.mail.At(ACCOUNT_CROSS).request, time);
  }

  lemma OneEvent(c: Config, w: World, e: Timed)
    requires w.now < e.time && e.account in w.seats && Enabled(w.seats[e.account], e.event)
    requires forall a :: a in w.seats ==> !w.seats[a].fatal
    ensures [e][1..] == [] && Feasible(c, w, [e]) && Run(c, w, [e]) == Step(c, w, e)
  {
    hide SeatStep, Enabled;
    assert [e][1..] == [];
  }

  /** A raised flag whose download is due, as it is at the moment at which it is raised, stays due while it
      is up, in all continuations, if and only if no poll is out at that moment. */
  lemma DueCondition(c: Config, w: World, account: string)
    requires Safe(w) && account in w.seats && w.seats[account].mode != PORTFOLIO
    requires Raised(w.seats[account]) && w.seats[account].mail.Due(ACCOUNT_CROSS)
    ensures AlwaysDue(c, w, account) <==> !PollOut(w.seats[account])
  {
    hide SeatStep, Raised;
    var s := w.seats[account];
    if PollOut(s) {
      var f :| f in s.worker.inFlight && f.slot == BORROWED;
      var i :| 0 <= i < |s.worker.inFlight| && s.worker.inFlight[i] == f;
      var e := Timed(account, FetchAck(i, true, ""), w.now + 1);
      NothingFatal(w);
      PollAnswers(c, s, i, w.now, w.now + 1);
      OneEvent(c, w, e);
      assert StaysUp(c, Step(c, w, e), account, []);
      assert StaysUp(c, w, account, [e]);
    } else {
      forall events | Feasible(c, w, events) && StaysUp(c, w, account, events)
        ensures IsDue(Run(c, w, events), account)
      {
        NoPollKeepsDue(c, w, account, events);
      }
    }
  }

  /** A tick that raises the flag finds the download due. */
  lemma RaisedByTick(c: Config, s: Seat, linkUp: bool, timerNow: int, now: int, time: int)
    requires s.mode != PORTFOLIO && SeatSafe(s, now) && now < time && !Raised(s)
    ensures var t := SeatStep(c, s, WorkerTick(linkUp, timerNow), time);
            Raised(t) ==> t.mail == s.mail && t.mail.Due(ACCOUNT_CROSS)
  {
    TimerAlive(c, s, linkUp, time, timerNow) by {
      ExpandSafe(s, now);
    }
    hide Flags.Has, Flags.Set;
    forall slot
      ensures s.worker.flags.Set(slot, true).Has(ACCOUNT_SLOT) <==> slot == ACCOUNT_SLOT || s.worker.flags.Has(ACCOUNT_SLOT)
    {
      SetHasAt(s.worker.flags, slot, true, ACCOUNT_SLOT);
    }
  }

  // --- over all runs

  ghost predicate DueWhenRaised(w: World, account: string) {
    account in w.seats && Raised(w.seats[account]) ==> w.seats[account].mail.Due(ACCOUNT_CROSS)
  }

  /** In every state of every run of every controller, a raised flag is due. */
  ghost predicate AllRunsDue(c: Config) {
    forall modes, events, account :: Feasible(c, Initial(modes), events) ==> DueWhenRaised(Run(c, Initial(modes), events), account)
  }

  /** No poll ever: none is out and no flag is up for one. */
  ghost predicate PollFree(s: Seat) {
    && !PollOut(s) && !s.worker.flags.Has(BORROWED)
    && (Raised(s) ==> s.mail.Due(ACCOUNT_CROSS))
  }

  lemma StepPollFree(c: Config, s: Seat, e: SeatEvent, now: int, time: int)
    requires c.pollBorrowed == 0 && SeatSafe(s, now) && Enabled(s, e) && now < time && PollFree(s)
    ensures PollFree(SeatStep(c, s, e, time))
  {
    if s.mode == PORTFOLIO {
      PortfolioStepSafe(c, s, e, now, time);
      NoFlags(NO_FLAGS);
    } else if e.WorkerTick? {
      TickPollFree(c, s, e.linkUp, e.timerNow, now, time);
    } else if Raised(s) && !e.WorkerLost? {
      StepWhileRaised(c, s, e, now, time);
      BorrowedStays(c, s, e, now, time);
    } else {
      BorrowedStays(c, s, e, now, time);
    }
  }

  lemma TickPollFree(c: Config, s: Seat, linkUp: bool, timerNow: int, now: int, time: int)
    requires c.pollBorrowed == 0 && s.mode != PORTFOLIO && SeatSafe(s, now) && now < time && PollFree(s)
    ensures PollFree(SeatStep(c, s, WorkerTick(linkUp, timerNow), time))
  {
    var k := FirstDue(s.mail);
    ExpandSafe(s, now);
    assert k.Some? ==> k.value !in SPOT && k.value != TRADES_CROSS && s.mail.Due(k.value);
    hide SeatSafe, Flags.Has, Flags.Set, FirstDue;
    if k.Some? {
      RepeatIs(MarginFetch(Download(k.value), time), 1);
      SetHasAt(s.worker.flags, Download(k.value), true, ACCOUNT_SLOT);
      SetHasAt(s.worker.flags, Download(k.value), true, BORROWED);
    }
  }

  /** No other event starts a poll or raises a flag. */
  lemma BorrowedStays(c: Config, s: Seat, e: SeatEvent, now: int, time: int)
    requires s.mode != PORTFOLIO && SeatSafe(s, now) && Enabled(s, e) && now < time && !e.WorkerTick?
    requires !PollOut(s) && !s.worker.flags.Has(BORROWED)
    ensures var t := SeatStep(c, s, e, time);
            && !PollOut(t) && !t.worker.flags.Has(BORROWED)
            && (Raised(t) ==> Raised(s) && !e.WorkerLost?)
  {
    NoFlags(NO_FLAGS);
    ExpandSafe(s, now);
    hide SeatSafe, Flags.Has, Flags.Set;
    if e.FetchAck? {
      AckIs(c, s, e.i, e.ok, e.listenKey, time);
      RemoveKeeps(s.worker.inFlight, e.i);
      SetHas(s.worker.flags, s.worker.inFlight[e.i].slot, false);
    }
  }

  lemma {:induction false} RunPollFree(c: Config, w: World, events: seq<Timed>)
    requires c.pollBorrowed == 0 && Safe(w) && Feasible(c, w, events)
    requires forall a :: a in w.seats ==> PollFree(w.seats[a])
    ensures var w' := Run(c, w, events);
            forall a :: a in w'.seats ==> PollFree(w'.seats[a])
    decreases |events|
  {
    hide SeatStep, Enabled, PollFree, SeatSafe;
    if events != [] {
      var e := events[0];
      StepPollFree(c, w.seats[e.account], e.event, w.now, e.time);
      OneStepSafe(c, w, e);
      RunPollFree(c, Step(c, w, e), events[1..]);
      assert Run(c, w, events) == Run(c, Step(c, w, e), events[1..]);
    }
  }

  /** In all runs a raised flag of the cross account is due, if and only if the poll is switched off. */
  lemma PollCondition(c: Config)
    ensures AllRunsDue(c) <==> c.pollBorrowed == 0
  {
    if c.pollBorrowed == 0 {
      forall modes, events, account | Feasible(c, Initial(modes), events)
        ensures DueWhenRaised(Run(c, Initial(modes), events), account)
      {
        InitiallyTimely(modes);
        InitiallyPollFree(modes);
        RunPollFree(c, Initial(modes), events);
      }
    } else {
      LatePollRun(c);
      FirstWorld();
      var events := Script(LATE_POLL, 0);
      assert Run(c, Initial(MODES), events) == OneSeat(Answered(c), |LATE_POLL|);
      AnsweredIs(c);
      assert !DueWhenRaised(Run(c, Initial(MODES), events), "A");
    }
  }

  lemma InitiallyPollFree(modes: map<string, MarginMode>)
    ensures forall a :: a in modes ==> PollFree(NewSeat(modes[a]))
  {
    NoFlags(NO_FLAGS);
  }

  lemma AnsweredIs(c: Config)
    ensures var s := Answered(c);
            && Raised(s) && !s.mail.Due(ACCOUNT_CROSS)
            && forall a :: a in s.worker.acks ==> a.slot != ACCOUNT_SLOT
  {
  }

  // --- what a poll can do to the drop copy

  /** A download of the account that was started after `since` has been answered. */
  ghost predicate FreshAnswer(s: Seat, since: int) {
    exists a :: a in s.worker.acks && a.slot == ACCOUNT_SLOT && since < a.issued
  }

  predicate InAccountStage(s: Seat, since: int) {
    s.marginDrop.Some? && s.marginDrop.value.stage == ACCOUNT_STAGE && s.marginDrop.value.entered == since
  }

  /** After `events`, the check `e` ends the account stage that was entered at `since`. */
  ghost predicate Ends(c: Config, w: World, account: string, since: int, events: seq<Timed>, e: Timed) {
    && Feasible(c, w, events)
    && var w' := Run(c, w, events);
       && e.account == account && account in w'.seats && w'.now < e.time && IsCheck(e.event) && Enabled(w'.seats[account], e.event)
       && InAccountStage(w'.seats[account], since)
       && !InAccountStage(SeatStep(c, w'.seats[account], e.event, e.time), since)
  }

  ghost predicate AnsweredFreshly(w: World, account: string, since: int) {
    account in w.seats && FreshAnswer(w.seats[account], since)
  }

  ghost predicate AlwaysFresh(c: Config, w: World, account: string, since: int) {
    forall events, e :: Ends(c, w, account, since, events, e) ==> AnsweredFreshly(Run(c, w, events), account, since)
  }

  /** Something out can answer for the account without having been asked since. */
  ghost predicate StaleOut(s: Seat) {
    exists f :: f in s.worker.inFlight && StampedKind(f.slot) == ACCOUNT_CROSS
  }

  /** Answered freshly, or not at all, and then nothing stale is out. */
  ghost predicate FreshOrOpen(s: Seat, since: int) {
    || FreshAnswer(s, since)
    || (&& s.mail.accountCross.respond < since <= s.mail.accountCross.request
        && forall f :: f in s.worker.inFlight ==> f.slot != BORROWED && (f.slot == ACCOUNT_SLOT ==> since < f.issued))
  }

  lemma StepFreshOrOpen(c: Config, s: Seat, e: SeatEvent, since: int, now: int, time: int)
    requires s.mode != PORTFOLIO && SeatSafe(s, now) && Enabled(s, e) && since <= now < time && FreshOrOpen(s, since)
    ensures FreshOrOpen(SeatStep(c, s, e, time), since)
  {
    var t := SeatStep(c, s, e, time);
    ExpandSafe(s, now);
    assert !s.portfolioDrop;
    hide SeatSafe, Flags.Has, Flags.Set;
    if e.FetchAck? {
      AckFreshOrOpen(c, s, e.i, e.ok, e.listenKey, since, time);
    } else if FreshAnswer(s, since) {
      assert t.worker.acks == s.worker.acks;
    } else if e.WorkerTick? {
      TickOpen(c, s, e.linkUp, e.timerNow, since, now, time);
    }
  }

  lemma AckFreshOrOpen(c: Config, s: Seat, i: nat, ok: bool, listenKey: string, since: int, time: int)
    requires s.mode != PORTFOLIO && i < |s.worker.inFlight| && FreshOrOpen(s, since)
    ensures FreshOrOpen(SeatStep(c, s, FetchAck(i, ok, listenKey), time), since)
  {
    var t := SeatStep(c, s, FetchAck(i, ok, listenKey), time);
    var fetch := s.worker.inFlight[i];
    AckIs(c, s, i, ok, listenKey, time);
    RemoveKeeps(s.worker.inFlight, i);
    assert fetch in s.worker.inFlight;
    hide SeatStep, Flags.Set;
    var a := MarginAck(fetch.slot, fetch.issued, time);
    assert a in t.worker.acks;
    if FreshAnswer(s, since) {
      var b :| b in s.worker.acks && b.slot == ACCOUNT_SLOT && since < b.issued;
      assert b in t.worker.acks;
    } else if fetch.slot != ACCOUNT_SLOT {
      assert t.mail.At(ACCOUNT_CROSS) == s.mail.At(ACCOUNT_CROSS);
    }
  }

  lemma TickOpen(c: Config, s: Seat, linkUp: bool, timerNow: int, since: int, now: int, time: int)
    requires s.mode != PORTFOLIO && Isolated(s) && since <= now < time && FreshOrOpen(s, since) && !FreshAnswer(s, since)
    ensures FreshOrOpen(SeatStep(c, s, WorkerTick(linkUp, timerNow), time), since)
  {
    var k := FirstDue(s.mail);
    assert s.mail.Due(ACCOUNT_CROSS);
    assert k.Some? && k.value !in SPOT && k.value != TRADES_CROSS;
    hide FirstDue, Flags.Set, Flags.Has;
    RepeatIs(MarginFetch(Download(k.value), time), 1);
  }

  lemma {:induction false} RunFreshOrOpen(c: Config, w: World, account: string, since: int, events: seq<Timed>)
    requires Safe(w) && account in w.seats && w.seats[account].mode != PORTFOLIO && since <= w.now
    requires FreshOrOpen(w.seats[account], since) && Feasible(c, w, events)
    ensures var w' := Run(c, w, events);
            account in w'.seats && FreshOrOpen(w'.seats[account], since)
    decreases |events|
  {
    hide SeatStep, Enabled, FreshOrOpen, SeatSafe;
    if events != [] {
      var e := events[0];
      if e.account == account {
        StepFreshOrOpen(c, w.seats[account], e.event, since, w.now, e.time);
      }
      OneStepSafe(c, w, e);
      RunFreshOrOpen(c, Step(c, w, e), account, since, events[1..]);
    }
  }

  /** At its entry an account stage is open, unless something stale is out. */
  lemma EntryIsOpen(s: Seat, since: int)
    requires s.mode != PORTFOLIO && SeatSafe(s, since) && Timely(s, since) && InAccountStage(s, since) && !StaleOut(s)
    ensures FreshOrOpen(s, since)
  {
    assert s.mail.At(ACCOUNT_CROSS).respond <= since;
    assert s.mail.At(ACCOUNT_CROSS).request == since && 0 < since;
    hide AccountServed, OrdersServed, LatestAck;
  }

  lemma EndIsAnswered(c: Config, s: Seat, e: SeatEvent, since: int, now: int, time: int)
    requires SeatSafe(s, now) && Timely(s, now) && Enabled(s, e) && IsCheck(e) && now < time
    requires InAccountStage(s, since) && !InAccountStage(SeatStep(c, s, e, time), since) && FreshOrOpen(s, since)
    ensures FreshAnswer(s, since)
  {
    assert s.mode != PORTFOLIO;
    hide AccountServed, OrdersServed, LatestAck;
  }

  /** The answer of something stale ends the stage. */
  lemma StaleEnds(c: Config, w: World, account: string, i: nat)
    requires AllTimely(w) && account in w.seats && w.seats[account].mode != PORTFOLIO
    requires InAccountStage(w.seats[account], w.now)
    requires i < |w.seats[account].worker.inFlight| && StampedKind(w.seats[account].worker.inFlight[i].slot) == ACCOUNT_CROSS
    ensures var ack := Timed(account, FetchAck(i, true, ""), w.now + 1);
            && Ends(c, w, account, w.now, [ack], Timed(account, DropCheck(ACCOUNT_CHECK), w.now + 2))
            && !AnsweredFreshly(Run(c, w, [ack]), account, w.now)
  {
    var s := w.seats[account];
    var ack := Timed(account, FetchAck(i, true, ""), w.now + 1);
    NothingFatal(w);
    assert SeatSafe(s, w.now) && Timely(s, w.now);
    StaleStep(c, s, i, w.now);
    hide SeatSafe, Timely, SeatStep, Safe;
    OneEvent(c, w, ack);
  }

  lemma StaleStep(c: Config, s: Seat, i: nat, now: int)
    requires s.mode != PORTFOLIO && SeatSafe(s, now) && Timely(s, now) && InAccountStage(s, now)
    requires i < |s.worker.inFlight| && StampedKind(s.worker.inFlight[i].slot) == ACCOUNT_CROSS
    ensures var t := SeatStep(c, s, FetchAck(i, true, ""), now + 1);
            && InAccountStage(t, now) && Enabled(t, DropCheck(ACCOUNT_CHECK)) && !FreshAnswer(t, now)
            && !InAccountStage(SeatStep(c, t, DropCheck(ACCOUNT_CHECK), now + 2), now)
  {
    AckIs(c, s, i, true, "", now + 1);
    hide Flags.Set, AccountServed, OrdersServed, LatestAck, Mail.Answer;
    var t := SeatStep(c, s, FetchAck(i, true, ""), now + 1);
    assert t.mail.At(ACCOUNT_CROSS) == Stamps(s.mail.At(ACCOUNT_CROSS).request, now + 1);
    assert t.marginDrop == s.marginDrop;
  }

  /** An account stage that has just been entered ends, in all continuations, only on the answer to a
      download started during the stage, if and only if neither a download of the account nor a poll was
      out when it was entered. */
  lemma FreshnessCondition(c: Config, w: World, account: string)
    requires AllTimely(w) && account in w.seats && w.seats[account].mode != PORTFOLIO
    requires InAccountStage(w.seats[account], w.now)
    ensures AlwaysFresh(c, w, account, w.now) <==> !StaleOut(w.seats[account])
  {
    var s := w.seats[account];
    if StaleOut(s) {
      var f :| f in s.worker.inFlight && StampedKind(f.slot) == ACCOUNT_CROSS;
      var i :| 0 <= i < |s.worker.inFlight| && s.worker.inFlight[i] == f;
      StaleEnds(c, w, account, i);
    } else {
      assert SeatSafe(s, w.now) && Timely(s, w.now);
      EntryIsOpen(s, w.now);
      hide SeatSafe, Timely, SeatStep, FreshOrOpen, StaleOut, Enabled, InAccountStage;
      forall events, e | Ends(c, w, account, w.now, events, e)
        ensures AnsweredFreshly(Run(c, w, events), account, w.now)
      {
        RunTimely(c, w, events);
        RunFreshOrOpen(c, w, account, w.now, events);
        var w' := Run(c, w, events);
        assert SeatSafe(w'.seats[account], w'.now) && Timely(w'.seats[account], w'.now);
        EndIsAnswered(c, w'.seats[account], e.event, w.now, w'.now, e.time);
      }
    }
  }

  /** From the very beginning: with the poll switched on, a run leads to an account stage that a check ends
      although no download of the account has ever been answered. */
  lemma PollEndsStage(c: Config)
    requires c.pollBorrowed != 0
    ensures Feasible(c, Initial(MODES), Script(LATE_POLL, 0))
    ensures Run(c, Initial(MODES), Script(LATE_POLL, 0)) == OneSeat(Answered(c), |LATE_POLL|)
    ensures var s := Answered(c);
            && InAccountStage(s, 9) && Enabled(s, DropCheck(ACCOUNT_CHECK))
            && !InAccountStage(SeatStep(c, s, DropCheck(ACCOUNT_CHECK), 12), 9)
            && forall a :: a in s.worker.acks ==> a.slot != ACCOUNT_SLOT
  {
    LatePollRun(c);
    FirstWorld();
    AnsweredIs(c);
  }

  // --- how often

  /** None of the ticks of an account comes after the given time of its clock. */
  ghost predicate TicksUntil(events: seq<Timed>, account: string, until: int) {
    forall e :: e in events && e.account == account && e.event.WorkerTick? ==> e.event.timerNow <= until
  }

  lemma StepBeforePoll(c: Config, s: Seat, e: SeatEvent, now: int, time: int)
    requires s.mode != PORTFOLIO && SeatSafe(s, now) && Enabled(s, e) && now < time
    requires s.worker.nextPollBorrowed != 0 && (e.WorkerTick? ==> e.timerNow <= s.worker.nextPollBorrowed)
    ensures var t := SeatStep(c, s, e, time);
            && t.worker.nextPollBorrowed == s.worker.nextPollBorrowed
            && forall f :: f in t.worker.inFlight && f.slot == BORROWED ==> f in s.worker.inFlight
  {
    ExpandSafe(s, now);
    hide SeatSafe, Isolated, Flags.Set, Flags.Has, FirstDue, WorkerTimer;
    if e.WorkerTick? {
      TickStarts(c, s, e.linkUp, time, e.timerNow);
    } else if e.FetchAck? {
      RemoveKeeps(s.worker.inFlight, e.i);
    }
  }

  /** Polls keep their distance: once a poll has set the time of the next one, no tick up to that time
      starts another, whatever happens in between, reconnects included. */
  lemma {:induction false} PollsSpaced(c: Config, w: World, account: string, events: seq<Timed>)
    requires Safe(w) && Feasible(c, w, events) && account in w.seats && w.seats[account].mode != PORTFOLIO
    requires w.seats[account].worker.nextPollBorrowed != 0
    requires TicksUntil(events, account, w.seats[account].worker.nextPollBorrowed)
    ensures account in Run(c, w, events).seats
    ensures var before, after := w.seats[account].worker, Run(c, w, events).seats[account].worker;
            && after.nextPollBorrowed == before.nextPollBorrowed
            && forall f :: f in after.inFlight && f.slot == BORROWED ==> f in before.inFlight
    decreases |events|
  {
    hide SeatStep, Enabled, SeatSafe;
    if events != [] {
      var e := events[0];
      assert e in events;
      if e.account == account {
        StepBeforePoll(c, w.seats[account], e.event, w.now, e.time);
      }
      OneStepSafe(c, w, e);
      PollsSpaced(c, Step(c, w, e), account, events[1..]);
    }
  }
}
