/** Runs of a controller with one account, written down event by event. */
module MarginScript {
  import opened Accounts
  import opened Wrappers
  import opened Mailbox
  import opened Margin
  import opened MarginRun

  const MODES := map["A" := MarginMode.CROSS]

  function OneSeat(s: Seat, now: int): World {
    World(now, map["A" := s])
  }

  /** One event per unit of time. */
  function Script(events: seq<SeatEvent>, time: int): seq<Timed> {
    if events == [] then [] else [Timed("A", events[0], time + 1)] + Script(events[1..], time + 1)
  }

  /** The events can happen from s on, and lead to t. */
  ghost predicate Leads(c: Config, s: Seat, time: int, events: seq<SeatEvent>, t: Seat) {
    && Feasible(c, OneSeat(s, time), Script(events, time))
    && Run(c, OneSeat(s, time), Script(events, time)) == OneSeat(t, time + |events|)
  }

  lemma FirstWorld()
    ensures Initial(MODES) == OneSeat(NewSeat(CROSS), 0)
  {
  }

  lemma Stay(c: Config, s: Seat, time: int)
    ensures Leads(c, s, time, [], s)
  {
  }

  /** One event at the next instant. */
  ghost predicate Goes(c: Config, s: Seat, time: int, e: SeatEvent, next: Seat) {
    !s.fatal && Enabled(s, e) && SeatStep(c, s, e, time + 1) == next
  }

  lemma Play(c: Config, s: Seat, time: int, e: SeatEvent, next: Seat, rest: seq<SeatEvent>, t: Seat)
    requires Goes(c, s, time, e, next)
    requires Leads(c, next, time + 1, rest, t)
    ensures Leads(c, s, time, [e] + rest, t)
  {
    hide SeatStep, Enabled;
    var w := OneSeat(s, time);
    var timed := Timed("A", e, time + 1);
    assert Script([e] + rest, time) == [timed] + Script(rest, time + 1) by {
      assert ([e] + rest)[1..] == rest;
    }
    assert ([timed] + Script(rest, time + 1))[1..] == Script(rest, time + 1);
    assert Step(c, w, timed) == OneSeat(next, time + 1);
  }

  // --- how both runs begin: the order-entry stream gets a listen key, so there is a drop copy

  const KEY_WORKER := NEW_WORKER.(hasListenKeyCross := true, acks := [MarginAck(Download(LISTEN_KEY_CROSS), 1, 2)])
  const KEYED := EMPTY.(listenKeyCross := Stamps(0, 2))

  function Seated(mail: Mail, w: Worker, status: ConnectionStatus, stage: Stage, entered: int): Seat {
    Seat(CROSS, mail, w, false, Some(Drop(status, stage, "k", false, entered)), false)
  }

  const CONNECTING := NewSeat(CROSS).(worker := NEW_WORKER.(inFlight := [MarginFetch(Download(LISTEN_KEY_CROSS), 1)]))
  const CONNECTED := Seated(KEYED, KEY_WORKER, DISCONNECTED, Stage.UNDEFINED, 0)
  const LINKED := Seated(KEYED, KEY_WORKER.(status := READY), DISCONNECTED, Stage.UNDEFINED, 0)

  lemma Begins(c: Config)
    ensures Goes(c, NewSeat(CROSS), 0, WorkerConnect, CONNECTING)
    ensures Goes(c, CONNECTED, 2, WorkerStatus(READY), LINKED)
  {
  }

  lemma GetsKey(c: Config)
    ensures Goes(c, CONNECTING, 1, FetchAck(0, true, "k"), CONNECTED)
  {
  }

  function Intro(rest: seq<SeatEvent>): seq<SeatEvent> {
    [WorkerConnect] + ([FetchAck(0, true, "k")] + ([WorkerStatus(READY)] + rest))
  }

  lemma PlayIntro(c: Config, rest: seq<SeatEvent>, t: Seat)
    requires Leads(c, LINKED, 3, rest, t)
    ensures Leads(c, NewSeat(CROSS), 0, Intro(rest), t)
  {
    Begins(c);
    GetsKey(c);
    hide *;
    Play(c, CONNECTED, 2, WorkerStatus(READY), LINKED, rest, t);
    Play(c, CONNECTING, 1, FetchAck(0, true, "k"), CONNECTED, [WorkerStatus(READY)] + rest, t);
    Play(c, NewSeat(CROSS), 0, WorkerConnect, CONNECTING, [FetchAck(0, true, "k")] + ([WorkerStatus(READY)] + rest), t);
    IntroIs(rest);
  }

  lemma IntroIs(rest: seq<SeatEvent>)
    ensures Intro(rest) == [WorkerConnect] + ([FetchAck(0, true, "k")] + ([WorkerStatus(READY)] + rest))
  {
  }

  /** The drop copy logs on and asks for the account. */
  function Logon(rest: seq<SeatEvent>): seq<SeatEvent> {
    [DropReady] + ([DropLogon(200)] + ([DropSubscribe(200)] + rest))
  }

  lemma LogsOn(c: Config, w: Worker, time: int)
    ensures Goes(c, Seated(KEYED, w, DISCONNECTED, Stage.UNDEFINED, 0), time, DropReady, Seated(KEYED, w, LOGIN_SENT, SESSION_LOGON, 0))
    ensures Goes(c, Seated(KEYED, w, LOGIN_SENT, SESSION_LOGON, 0), time + 1, DropLogon(200),
                 Seated(KEYED, w, DOWNLOADING, USER_DATA_STREAM_SUBSCRIBE, 0))
    ensures Goes(c, Seated(KEYED, w, DOWNLOADING, USER_DATA_STREAM_SUBSCRIBE, 0), time + 2, DropSubscribe(200),
                 Seated(KEYED.(accountCross := Stamps(time + 3, 0)), w, DOWNLOADING, ACCOUNT_STAGE, time + 3))
  {
  }

  lemma PlayLogon(c: Config, w: Worker, time: int, rest: seq<SeatEvent>, t: Seat)
    requires Leads(c, Seated(KEYED.(accountCross := Stamps(time + 3, 0)), w, DOWNLOADING, ACCOUNT_STAGE, time + 3), time + 3, rest, t)
    ensures Leads(c, Seated(KEYED, w, DISCONNECTED, Stage.UNDEFINED, 0), time, Logon(rest), t)
  {
    LogsOn(c, w, time);
    hide Goes, Leads, Seated;
    Play(c, Seated(KEYED, w, DOWNLOADING, USER_DATA_STREAM_SUBSCRIBE, 0), time + 2, DropSubscribe(200),
         Seated(KEYED.(accountCross := Stamps(time + 3, 0)), w, DOWNLOADING, ACCOUNT_STAGE, time + 3), rest, t);
    Play(c, Seated(KEYED, w, LOGIN_SENT, SESSION_LOGON, 0), time + 1, DropLogon(200),
         Seated(KEYED, w, DOWNLOADING, USER_DATA_STREAM_SUBSCRIBE, 0), [DropSubscribe(200)] + rest, t);
    Play(c, Seated(KEYED, w, DISCONNECTED, Stage.UNDEFINED, 0), time, DropReady,
         Seated(KEYED, w, LOGIN_SENT, SESSION_LOGON, 0), [DropLogon(200)] + ([DropSubscribe(200)] + rest), t);
  }

  // --- a poll that is answered after a reconnect

  const ACCOUNT_SLOT := Download(ACCOUNT_CROSS)
  const POLL := MarginFetch(BORROWED, 4)
  const POLLING := NO_FLAGS.(accountCrossOnTimer := true)
  const ASKING := NO_FLAGS.(accountCross := true)

  /** The order-entry stream once it has started a poll. */
  function Polled(c: Config, status: ConnectionStatus, flags: Flags): Worker {
    KEY_WORKER.(status := status, flags := flags, nextPollBorrowed := 1 + c.pollBorrowed, inFlight := [POLL])
  }

  /** After the reconnect the account has been asked for, and its download has been started. */
  function Asking(c: Config): Seat {
    var w := Polled(c, READY, ASKING);
    Seated(KEYED.(accountCross := Stamps(9, 0)), w.(inFlight := [POLL, MarginFetch(ACCOUNT_SLOT, 10)]), DOWNLOADING, ACCOUNT_STAGE, 9)
  }

  /** The late callback of the poll has answered. */
  function Answered(c: Config): Seat {
    var w := Polled(c, READY, ASKING);
    Seated(KEYED.(accountCross := Stamps(9, 11)),
           w.(inFlight := [MarginFetch(ACCOUNT_SLOT, 10)], acks := w.acks + [MarginAck(BORROWED, 4, 11)]), DOWNLOADING, ACCOUNT_STAGE, 9)
  }

  lemma StartsPoll(c: Config)
    requires c.pollBorrowed != 0
    ensures Goes(c, LINKED, 3, WorkerTick(true, 1), Seated(KEYED, Polled(c, READY, POLLING), DISCONNECTED, Stage.UNDEFINED, 0))
  {
    assert Repeat(POLL, 1) == [POLL];
  }

  lemma Reconnects(c: Config)
    ensures Goes(c, Seated(KEYED, Polled(c, READY, POLLING), DISCONNECTED, Stage.UNDEFINED, 0), 4, WorkerLost,
                 Seated(KEYED, Polled(c, DISCONNECTED, NO_FLAGS), DISCONNECTED, Stage.UNDEFINED, 0))
    ensures Goes(c, Seated(KEYED, Polled(c, DISCONNECTED, NO_FLAGS), DISCONNECTED, Stage.UNDEFINED, 0), 5, WorkerStatus(READY),
                 Seated(KEYED, Polled(c, READY, NO_FLAGS), DISCONNECTED, Stage.UNDEFINED, 0))
  {
  }

  lemma StartsAccount(c: Config)
    ensures Goes(c, Seated(KEYED.(accountCross := Stamps(9, 0)), Polled(c, READY, NO_FLAGS), DOWNLOADING, ACCOUNT_STAGE, 9), 9,
                 WorkerTick(true, 1), Asking(c))
  {
    assert Repeat(MarginFetch(ACCOUNT_SLOT, 10), 1) == [MarginFetch(ACCOUNT_SLOT, 10)];
  }

  lemma PollAnswersLate(c: Config)
    ensures Goes(c, Asking(c), 10, FetchAck(0, true, ""), Answered(c))
  {
  }

  /** A poll is out when the link is lost and comes back. */
  function Reconnect(rest: seq<SeatEvent>): seq<SeatEvent> {
    [WorkerTick(true, 1)] + ([WorkerLost] + ([WorkerStatus(READY)] + rest))
  }

  lemma PlayReconnect(c: Config, rest: seq<SeatEvent>, t: Seat)
    requires c.pollBorrowed != 0
    requires Leads(c, Seated(KEYED, Polled(c, READY, NO_FLAGS), DISCONNECTED, Stage.UNDEFINED, 0), 6, rest, t)
    ensures Leads(c, LINKED, 3, Reconnect(rest), t)
  {
    StartsPoll(c);
    Reconnects(c);
    hide Goes, Leads, Seated, Polled;
    var polling := Seated(KEYED, Polled(c, READY, POLLING), DISCONNECTED, Stage.UNDEFINED, 0);
    var lost := Seated(KEYED, Polled(c, DISCONNECTED, NO_FLAGS), DISCONNECTED, Stage.UNDEFINED, 0);
    Play(c, lost, 5, WorkerStatus(READY), Seated(KEYED, Polled(c, READY, NO_FLAGS), DISCONNECTED, Stage.UNDEFINED, 0), rest, t);
    Play(c, polling, 4, WorkerLost, lost, [WorkerStatus(READY)] + rest, t);
    Play(c, LINKED, 3, WorkerTick(true, 1), polling, [WorkerLost] + ([WorkerStatus(READY)] + rest), t);
  }

  const LATE_ANSWER: seq<SeatEvent> := [WorkerTick(true, 1)] + ([FetchAck(0, true, "")] + [])

  lemma PlayLateAnswer(c: Config)
    ensures Leads(c, Seated(KEYED.(accountCross := Stamps(9, 0)), Polled(c, READY, NO_FLAGS), DOWNLOADING, ACCOUNT_STAGE, 9), 9, LATE_ANSWER, Answered(c))
  {
    StartsAccount(c);
    PollAnswersLate(c);
    Stay(c, Answered(c), 11);
    hide Goes, Leads, Seated, Polled, Asking, Answered;
    Play(c, Asking(c), 10, FetchAck(0, true, ""), Answered(c), [], Answered(c));
    Play(c, Seated(KEYED.(accountCross := Stamps(9, 0)), Polled(c, READY, NO_FLAGS), DOWNLOADING, ACCOUNT_STAGE, 9), 9,
         WorkerTick(true, 1), Asking(c), [FetchAck(0, true, "")] + [], Answered(c));
  }

  const LATE_POLL := Intro(Reconnect(Logon(LATE_ANSWER)))

  /** The run: a poll is out; the link is lost and comes back; the account is asked for and its download
      started; then the poll is answered. */
  lemma LatePollRun(c: Config)
    requires c.pollBorrowed != 0
    ensures Leads(c, NewSeat(CROSS), 0, LATE_POLL, Answered(c))
  {
    PlayLateAnswer(c);
    hide Goes, Leads, Seated, Polled, Answered, Intro, Logon, Reconnect;
    PlayLogon(c, Polled(c, READY, NO_FLAGS), 6, LATE_ANSWER, Answered(c));
    PlayReconnect(c, Logon(LATE_ANSWER), Answered(c));
    PlayIntro(c, Reconnect(Logon(LATE_ANSWER)), Answered(c));
  }

  // --- a download that is completed, with direct checks

  const LINKED_WORKER := KEY_WORKER.(status := READY)
  const ORDERS_SLOT := Download(ORDERS_CROSS)
  const ACCOUNT_MAIL := KEYED.(accountCross := Stamps(6, 8))
  const ACCOUNT_WORKER := LINKED_WORKER.(acks := LINKED_WORKER.acks + [MarginAck(ACCOUNT_SLOT, 7, 8)])
  const FETCHING_ACCOUNT := Seated(
    KEYED.(accountCross := Stamps(6, 0)), LINKED_WORKER.(flags := ASKING, inFlight := [MarginFetch(ACCOUNT_SLOT, 7)]),
    DOWNLOADING, ACCOUNT_STAGE, 6)
  const HAS_ACCOUNT := Seated(ACCOUNT_MAIL, ACCOUNT_WORKER, DOWNLOADING, ACCOUNT_STAGE, 6)
  const WANTS_ORDERS := Seated(ACCOUNT_MAIL.(ordersCross := Stamps(9, 0)), ACCOUNT_WORKER, DOWNLOADING, ORDERS_STAGE, 9)
  const FETCHING_ORDERS := Seated(
    ACCOUNT_MAIL.(ordersCross := Stamps(9, 0)),
    ACCOUNT_WORKER.(flags := NO_FLAGS.(ordersCross := true), inFlight := [MarginFetch(ORDERS_SLOT, 10)]), DOWNLOADING, ORDERS_STAGE, 9)
  const ORDERS_WORKER := ACCOUNT_WORKER.(acks := ACCOUNT_WORKER.acks + [MarginAck(ORDERS_SLOT, 10, 11)])
  const HAS_ORDERS := Seated(ACCOUNT_MAIL.(ordersCross := Stamps(9, 11)), ORDERS_WORKER, DOWNLOADING, ORDERS_STAGE, 9)
  const COMPLETE := HAS_ORDERS.(marginDrop := Some(HAS_ORDERS.marginDrop.value.(status := READY, stage := DONE)))

  lemma FetchesAccount(c: Config)
    ensures Goes(c, Seated(KEYED.(accountCross := Stamps(6, 0)), LINKED_WORKER, DOWNLOADING, ACCOUNT_STAGE, 6), 6,
                 WorkerTick(true, 1), FETCHING_ACCOUNT)
  {
    assert Repeat(MarginFetch(ACCOUNT_SLOT, 7), 1) == [MarginFetch(ACCOUNT_SLOT, 7)];
  }

  lemma FetchesOrders(c: Config)
    ensures Goes(c, WANTS_ORDERS, 9, WorkerTick(true, 1), FETCHING_ORDERS)
  {
    assert Repeat(MarginFetch(ORDERS_SLOT, 10), 1) == [MarginFetch(ORDERS_SLOT, 10)];
  }

  lemma GetsAccount(c: Config)
    ensures Goes(c, FETCHING_ACCOUNT, 7, FetchAck(0, true, ""), HAS_ACCOUNT)
  {
  }

  lemma GetsOrders(c: Config)
    ensures Goes(c, FETCHING_ORDERS, 10, FetchAck(0, true, ""), HAS_ORDERS)
  {
  }

  lemma Checks(c: Config)
    ensures Goes(c, HAS_ACCOUNT, 8, DropCheck(ACCOUNT_CHECK), WANTS_ORDERS)
    ensures Goes(c, HAS_ORDERS, 11, DropCheck(ORDERS_CHECK), COMPLETE)
  {
  }

  const FETCH_ORDERS: seq<SeatEvent> := [FetchAck(0, true, "")] + ([DropCheck(ORDERS_CHECK)] + [])
  const FETCH_ACCOUNT: seq<SeatEvent> :=
    [WorkerTick(true, 1)] + ([FetchAck(0, true, "")] + ([DropCheck(ACCOUNT_CHECK)] + ([WorkerTick(true, 1)] + FETCH_ORDERS)))

  lemma PlayOrders(c: Config)
    ensures Leads(c, FETCHING_ORDERS, 10, FETCH_ORDERS, COMPLETE)
  {
    GetsOrders(c);
    Checks(c);
    Stay(c, COMPLETE, 12);
    hide Goes, Leads, Seated;
    Play(c, HAS_ORDERS, 11, DropCheck(ORDERS_CHECK), COMPLETE, [], COMPLETE);
    Play(c, FETCHING_ORDERS, 10, FetchAck(0, true, ""), HAS_ORDERS, [DropCheck(ORDERS_CHECK)] + [], COMPLETE);
  }

  lemma PlayAccount(c: Config)
    ensures Leads(c, Seated(KEYED.(accountCross := Stamps(6, 0)), LINKED_WORKER, DOWNLOADING, ACCOUNT_STAGE, 6), 6, FETCH_ACCOUNT, COMPLETE)
  {
    FetchesAccount(c);
    GetsAccount(c);
    Checks(c);
    FetchesOrders(c);
    PlayOrders(c);
    hide Goes, Leads, Seated;
    Play(c, WANTS_ORDERS, 9, WorkerTick(true, 1), FETCHING_ORDERS, FETCH_ORDERS, COMPLETE);
    Play(c, HAS_ACCOUNT, 8, DropCheck(ACCOUNT_CHECK), WANTS_ORDERS, [WorkerTick(true, 1)] + FETCH_ORDERS, COMPLETE);
    Play(c, FETCHING_ACCOUNT, 7, FetchAck(0, true, ""), HAS_ACCOUNT,
         [DropCheck(ACCOUNT_CHECK)] + ([WorkerTick(true, 1)] + FETCH_ORDERS), COMPLETE);
    Play(c, Seated(KEYED.(accountCross := Stamps(6, 0)), LINKED_WORKER, DOWNLOADING, ACCOUNT_STAGE, 6), 6, WorkerTick(true, 1),
         FETCHING_ACCOUNT, [FetchAck(0, true, "")] + ([DropCheck(ACCOUNT_CHECK)] + ([WorkerTick(true, 1)] + FETCH_ORDERS)), COMPLETE);
  }

  /** With direct checks a run does complete the download, by way of a raised flag for the orders. */
  lemma CompleteRun(c: Config)
    ensures Leads(c, NewSeat(CROSS), 0, Intro(Logon(FETCH_ACCOUNT)), COMPLETE)
    ensures COMPLETE.marginDrop.value.stage == DONE && COMPLETE.marginDrop.value.status == READY
    ensures FETCHING_ORDERS.worker.flags.Has(ORDERS_SLOT) && Leads(c, FETCHING_ORDERS, 10, FETCH_ORDERS, COMPLETE)
  {
    PlayAccount(c);
    PlayOrders(c);
    assert COMPLETE.marginDrop.value.stage == DONE && COMPLETE.marginDrop.value.status == READY;
    assert FETCHING_ORDERS.worker.flags.Has(ORDERS_SLOT);
    hide Goes, Leads, Seated, Intro, Logon, Flags.Has;
    PlayLogon(c, LINKED_WORKER, 3, FETCH_ACCOUNT, COMPLETE);
    PlayIntro(c, Logon(FETCH_ACCOUNT), COMPLETE);
  }
}
