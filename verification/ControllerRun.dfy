/** What holds over every run of the controller and its market-data streams: symbols come in, streams
    connect, drain their queues and disconnect, in any order. */
module ControllerRun {
  import opened Accounts
  import opened Words
  import opened Ascii
  import opened Symbols
  import opened MarketData
  import opened Controller

  datatype Event =
    | Exchange(listings: seq<Listing>)
    | Request(symbols: seq<string>)
    | ListenKey(account: string, mode: MarginMode)
    | FeedReady(priority: Priority, i: nat)
    | FeedLost(priority: Priority, i: nat)
    | FeedTick(priority: Priority, i: nat, n: nat)

  function Feeds(w: World, priority: Priority): seq<Feed> {
    if priority == PRIMARY then w.primary else w.secondary
  }

  function WithFeed(w: World, priority: Priority, i: nat, f: Feed): World
    requires i < |Feeds(w, priority)|
  {
    if priority == PRIMARY then w.(primary := w.primary[i := f]) else w.(secondary := w.secondary[i := f])
  }

  /** A connection becomes ready once; the rate limiter cannot let more pass than is queued. */
  predicate Enabled(w: World, e: Event) {
    match e
    case ListenKey(_, mode) => mode != UNDEFINED
    case FeedReady(p, i) => i < |Feeds(w, p)| && !Feeds(w, p)[i].ready
    case FeedLost(p, i) => i < |Feeds(w, p)|
    case FeedTick(p, i, n) => i < |Feeds(w, p)| && n <= |Feeds(w, p)[i].queue|
    case _ => true
  }

  function Step(setup: Setup, w: World, e: Event): World
    requires Enabled(w, e)
  {
    match e
    case Exchange(listings) => ExchangeInfo(setup, w, listings)
    case Request(symbols) => SubscribeRequest(setup, w, symbols)
    case ListenKey(account, mode) => ListenKeyUpdate(w, account, mode)
    case FeedReady(p, i) => WithFeed(w, p, i, OnReady(setup.settings, w.items, setup.max, Feeds(w, p)[i]))
    case FeedLost(p, i) => WithFeed(w, p, i, OnLost(Feeds(w, p)[i]))
    case FeedTick(p, i, n) =>
      if Feeds(w, p)[i].ready then WithFeed(w, p, i, Drain(Feeds(w, p)[i], n)) else w
  }

  predicate Feasible(setup: Setup, w: World, events: seq<Event>)
    decreases |events|
  {
    events != [] ==> Enabled(w, events[0]) && Feasible(setup, Step(setup, w, events[0]), events[1..])
  }

  function Run(setup: Setup, w: World, events: seq<Event>): World
    requires Feasible(setup, w, events)
    decreases |events|
  {
    if events == [] then w else Run(setup, Step(setup, w, events[0]), events[1..])
  }

  // --- what a stream has subscribed to

  /** All symbols subscribed to on a channel, in order and with repetitions. */
  function ForChannel(messages: seq<Message>, channel: string): seq<string> {
    if messages == [] then []
    else
      var m := messages[|messages| - 1];
      ForChannel(messages[..|messages| - 1], channel) + if m.channel == channel then m.symbols else []
  }

  ghost predicate Distinct(items: seq<string>) {
    forall i, j :: 0 <= i < j < |items| ==> items[i] != items[j]
  }

  /** A stream that is ready has subscribed, in messages sent or queued, to its slice on each of its
      channels, and to nothing else; one that is not has nothing sent or queued. */
  ghost predicate FeedSafe(setup: Setup, items: seq<string>, f: Feed, priority: Priority, index: nat) {
    && f.priority == priority && f.index == index
    && (!f.ready ==> f.sent == f.queue == [])
    && (f.ready ==> forall channel :: ForChannel(f.sent + f.queue, channel)
                      == if channel in Channels(setup.settings, priority) then Slice(items, setup.max, index, 0) else [])
  }

  ghost predicate Numbered(w: World) {
    && w.streamId == |w.created| % TWO_16
    && forall i :: 0 <= i < |w.created| ==> w.created[i].id == (i + 1) % TWO_16
  }

  ghost predicate Safe(setup: Setup, w: World) {
    && Distinct(w.items)
    && (forall x :: x in w.items <==> x in w.known)
    && |w.primary| == SliceCount(|w.items|, setup.max)
    && |w.secondary| == (if setup.settings.enableSecondary then SliceCount(|w.items|, setup.max) else 0)
    && (forall i :: 0 <= i < |w.primary| ==> FeedSafe(setup, w.items, w.primary[i], PRIMARY, i))
    && (forall i :: 0 <= i < |w.secondary| ==> FeedSafe(setup, w.items, w.secondary[i], SECONDARY, i))
    && Numbered(w)
  }

  // --- one stream

  lemma ChannelsDistinct(settings: Settings, priority: Priority)
    ensures Distinct(Channels(settings, priority))
  {
    assert DepthChannel(settings)[0] == 'd';
    assert "trade"[0] == 't' && "aggTrade"[0] == 'a' && "miniTicker"[0] == 'm' && "bookTicker"[0] == 'b' && "kline_1m"[0] == 'k';
  }

  lemma ForChannelPush(messages: seq<Message>, m: Message, channel: string)
    ensures ForChannel(messages + [m], channel) == ForChannel(messages, channel) + if m.channel == channel then m.symbols else []
  {
    assert (messages + [m])[..|messages|] == messages;
  }

  lemma PushCovers(f: Feed, symbols: seq<string>, last: string, channel: string)
    ensures var g := Push(f, symbols, last);
            && g.(requestId := f.requestId, queue := f.queue) == f
            && ForChannel(g.sent + g.queue, channel) == ForChannel(f.sent + f.queue, channel) + if channel == last then symbols else []
  {
    hide ForChannel;
    var m := Message(symbols, last, (f.requestId + 1) % TWO_64);
    assert f.sent + (f.queue + [m]) == f.sent + f.queue + [m];
    ForChannelPush(f.sent + f.queue, m, channel);
  }

  lemma {:induction false} PushAllCovers(f: Feed, symbols: seq<string>, channels: seq<string>, channel: string)
    requires Distinct(channels)
    ensures var g := PushAll(f, symbols, channels);
            && g.(requestId := f.requestId, queue := f.queue) == f
            && ForChannel(g.sent + g.queue, channel) == ForChannel(f.sent + f.queue, channel) + if channel in channels then symbols else []
  {
    hide ForChannel, Push;
    if channels == [] {
      assert ForChannel(f.sent + f.queue, channel) + [] == ForChannel(f.sent + f.queue, channel);
    } else {
      var front, last := channels[..|channels| - 1], channels[|channels| - 1];
      PushAllCovers(f, symbols, front, channel);
      PushCovers(PushAll(f, symbols, front), symbols, last, channel);
      assert channels == front + [last];
    }
  }

  lemma SubscribeCovers(settings: Settings, f: Feed, symbols: seq<string>, channel: string)
    ensures var g := Subscribe(settings, f, symbols);
            && g.(requestId := f.requestId, queue := f.queue) == f
            && ForChannel(g.sent + g.queue, channel)
               == ForChannel(f.sent + f.queue, channel) + if channel in Channels(settings, f.priority) then symbols else []
  {
    ChannelsDistinct(settings, f.priority);
    PushAllCovers(f, symbols, Channels(settings, f.priority), channel);
  }

  lemma FeedExtends(setup: Setup, items: seq<string>, added: seq<string>, f: Feed, priority: Priority, index: nat)
    requires FeedSafe(setup, items, f, priority, index)
    ensures FeedSafe(setup, items + added, SubscribeFrom(setup.settings, items + added, setup.max, f, |items|), priority, index)
  {
    hide Slice, Channels, Subscribe;
    if f.ready {
      var g := SubscribeFrom(setup.settings, items + added, setup.max, f, |items|);
      SliceExtends(items, added, setup.max, index);
      forall channel
        ensures g.(requestId := f.requestId, queue := f.queue) == f
        ensures ForChannel(g.sent + g.queue, channel)
                == if channel in Channels(setup.settings, priority) then Slice(items + added, setup.max, index, 0) else []
      {
        SubscribeCovers(setup.settings, f, Slice(items + added, setup.max, index, |items|), channel);
      }
      assert g.(requestId := f.requestId, queue := f.queue) == f by {
        SubscribeCovers(setup.settings, f, Slice(items + added, setup.max, index, |items|), "");
      }
    }
  }

  lemma FeedConnects(setup: Setup, items: seq<string>, f: Feed, priority: Priority, index: nat)
    requires FeedSafe(setup, items, f, priority, index) && !f.ready
    ensures FeedSafe(setup, items, OnReady(setup.settings, items, setup.max, f), priority, index)
  {
    hide Slice, Channels, Subscribe;
    var r := f.(ready := true);
    var g := OnReady(setup.settings, items, setup.max, f);
    forall channel
      ensures ForChannel(g.sent + g.queue, channel)
              == if channel in Channels(setup.settings, priority) then Slice(items, setup.max, index, 0) else []
    {
      SubscribeCovers(setup.settings, r, Slice(items, setup.max, index, 0), channel);
    }
    SubscribeCovers(setup.settings, r, Slice(items, setup.max, index, 0), "");
  }

  lemma FeedDrains(setup: Setup, items: seq<string>, f: Feed, priority: Priority, index: nat, n: nat)
    requires FeedSafe(setup, items, f, priority, index) && f.ready && n <= |f.queue|
    ensures FeedSafe(setup, items, Drain(f, n), priority, index)
  {
    var g := Drain(f, n);
    assert g.sent + g.queue == f.sent + f.queue by {
      assert f.queue == f.queue[..n] + f.queue[n..];
    }
  }

  // --- new symbols

  lemma {:induction false} AddedIsNew(known: set<string>, list: seq<string>)
    ensures var (added, all) := Added(known, list);
            && Distinct(added)
            && (forall x :: x in added ==> x !in known)
            && (forall x :: x in all <==> x in known || x in added)
            && (forall x :: x in list ==> x in all)
  {
    if list != [] {
      AddedIsNew(known, list[..|list| - 1]);
      assert list == list[..|list| - 1] + [list[|list| - 1]];
    }
  }

  lemma {:induction false} EnsurePrimaryAdds(w: World, size: nat)
    requires Numbered(w)
    ensures var w' := EnsurePrimary(w, size);
            && Numbered(w') && w.primary <= w'.primary
            && |w'.primary| == (if |w.primary| < size then size else |w.primary|)
            && w'.(primary := w.primary, streamId := w.streamId, created := w.created) == w
            && forall i :: |w.primary| <= i < |w'.primary| ==>
                  && w'.primary[i].priority == PRIMARY && w'.primary[i].index == i && !w'.primary[i].ready
                  && w'.primary[i].sent == w'.primary[i].queue == []
    decreases size - |w.primary|
  {
    if |w.primary| < size {
      var w1 := Create(w, MARKET_DATA(PRIMARY, |w.primary|));
      CreateNumbers(w, MARKET_DATA(PRIMARY, |w.primary|));
      EnsurePrimaryAdds(w1.(primary := w.primary + [NewFeed(w1.streamId, |w.primary|, PRIMARY)]), size);
    }
  }

  lemma {:induction false} EnsureSecondaryAdds(w: World, size: nat)
    requires Numbered(w)
    ensures var w' := EnsureSecondary(w, size);
            && Numbered(w') && w.secondary <= w'.secondary
            && |w'.secondary| == (if |w.secondary| < size then size else |w.secondary|)
            && w'.(secondary := w.secondary, streamId := w.streamId, created := w.created) == w
            && forall i :: |w.secondary| <= i < |w'.secondary| ==>
                  && w'.secondary[i].priority == SECONDARY && w'.secondary[i].index == i && !w'.secondary[i].ready
                  && w'.secondary[i].sent == w'.secondary[i].queue == []
    decreases size - |w.secondary|
  {
    if |w.secondary| < size {
      var w1 := Create(w, MARKET_DATA(SECONDARY, |w.secondary|));
      CreateNumbers(w, MARKET_DATA(SECONDARY, |w.secondary|));
      EnsureSecondaryAdds(w1.(secondary := w.secondary + [NewFeed(w1.streamId, |w.secondary|, SECONDARY)]), size);
    }
  }

  lemma CreateNumbers(w: World, kind: Kind)
    requires Numbered(w)
    ensures Numbered(Create(w, kind))
  {
  }

  lemma {:induction false} SliceCountGrows(n: nat, m: nat, max: Positive)
    requires n <= m
    ensures SliceCount(n, max) <= SliceCount(m, max)
  {
    if n > max {
      SliceCountGrows(n - max, m - max, max);
    }
  }

  lemma DistinctConcat(items: seq<string>, added: seq<string>)
    requires Distinct(items) && Distinct(added) && forall x :: x in added ==> x !in items
    ensures Distinct(items + added)
  {
    var both := items + added;
    forall i, j | 0 <= i < j < |both|
      ensures both[i] != both[j]
    {
      if i < |items| <= j {
        assert both[i] in items && both[j] in added;
      }
    }
  }

  lemma UpdateSafe(setup: Setup, w: World, known: set<string>, added: seq<string>)
    requires Safe(setup, w) && Distinct(added)
    requires (forall x :: x in added ==> x !in w.known) && (forall x :: x in known <==> x in w.known || x in added)
    ensures Safe(setup, SymbolsUpdate(setup, w.(known := known), added))
  {
    hide SliceCount, EnsurePrimary, EnsureSecondary, SubscribeFrom, FeedSafe, NewFeed;
    var items := w.items + added;
    var size := SliceCount(|items|, setup.max);
    SliceCountGrows(|w.items|, |items|, setup.max);
    var w0 := w.(known := known, items := items);
    EnsurePrimaryAdds(w0, size);
    var w1 := EnsurePrimary(w0, size);
    EnsureSecondaryAdds(w1, size);
    var w2 := EnsureSlices(setup, w0, size);
    var r := SymbolsUpdate(setup, w.(known := known), added);
    forall i | 0 <= i < |r.primary|
      ensures FeedSafe(setup, items, r.primary[i], PRIMARY, i)
    {
      if i >= |w.primary| {
        NewIsSafe(setup, w.items, w2.primary[i], PRIMARY, i);
      }
      FeedExtends(setup, w.items, added, w2.primary[i], PRIMARY, i);
    }
    forall i | 0 <= i < |r.secondary|
      ensures FeedSafe(setup, items, r.secondary[i], SECONDARY, i)
    {
      if i >= |w.secondary| {
        NewIsSafe(setup, w.items, w2.secondary[i], SECONDARY, i);
      }
      FeedExtends(setup, w.items, added, w2.secondary[i], SECONDARY, i);
    }
    DistinctConcat(w.items, added);
  }

  lemma NewIsSafe(setup: Setup, items: seq<string>, f: Feed, priority: Priority, index: nat)
    requires f.priority == priority && f.index == index && !f.ready && f.sent == f.queue == []
    ensures FeedSafe(setup, items, f, priority, index)
  {
  }

  lemma ListenKeySafe(setup: Setup, w: World, account: string, mode: MarginMode)
    requires Safe(setup, w)
    ensures Safe(setup, ListenKeyUpdate(w, account, mode))
  {
    hide FeedSafe, SliceCount;
    CreateNumbers(w, DROP_COPY(account));
    CreateNumbers(w, DROP_COPY_MARGIN(account));
  }

  lemma WithFeedSafe(setup: Setup, w: World, priority: Priority, i: nat, f: Feed)
    requires Safe(setup, w) && i < |Feeds(w, priority)|
    requires FeedSafe(setup, w.items, f, priority, i)
    ensures Safe(setup, WithFeed(w, priority, i, f))
  {
    hide FeedSafe, SliceCount;
  }

  lemma StepSafe(setup: Setup, w: World, e: Event)
    requires Safe(setup, w) && Enabled(w, e)
    ensures Safe(setup, Step(setup, w, e))
  {
    match e
    case Exchange(listings) =>
      hide FeedSafe, SliceCount, SymbolsUpdate, Numbered;
      AddedIsNew(w.known, Normalised(listings));
      UpdateSafe(setup, w, Added(w.known, Normalised(listings)).1, Added(w.known, Normalised(listings)).0);
    case Request(symbols) =>
      hide FeedSafe, SliceCount, SymbolsUpdate, Numbered;
      AddedIsNew(w.known, symbols);
      UpdateSafe(setup, w, Added(w.known, symbols).1, Added(w.known, symbols).0);
    case ListenKey(account, mode) => ListenKeySafe(setup, w, account, mode);
    case FeedReady(p, i) => FeedStepSafe(setup, w, e, p, i);
    case FeedLost(p, i) => FeedStepSafe(setup, w, e, p, i);
    case FeedTick(p, i, n) => FeedStepSafe(setup, w, e, p, i);
  }

  lemma FeedStepSafe(setup: Setup, w: World, e: Event, priority: Priority, i: nat)
    requires Safe(setup, w) && Enabled(w, e)
    requires e == FeedReady(priority, i) || e == FeedLost(priority, i) || (e.FeedTick? && e.priority == priority && e.i == i)
    ensures Safe(setup, Step(setup, w, e))
  {
    var f := Feeds(w, priority)[i];
    assert FeedSafe(setup, w.items, f, priority, i);
    hide FeedSafe, Safe, WithFeed, OnReady;
    if e.FeedReady? {
      FeedConnects(setup, w.items, f, priority, i);
      WithFeedSafe(setup, w, priority, i, OnReady(setup.settings, w.items, setup.max, f));
    } else if e.FeedLost? {
      FeedIs(setup, w.items, f, priority, i);
      NewIsSafe(setup, w.items, OnLost(f), priority, i);
      WithFeedSafe(setup, w, priority, i, OnLost(f));
    } else if f.ready {
      FeedDrains(setup, w.items, f, priority, i, e.n);
      WithFeedSafe(setup, w, priority, i, Drain(f, e.n));
    }
  }

  lemma FeedIs(setup: Setup, items: seq<string>, f: Feed, priority: Priority, index: nat)
    requires FeedSafe(setup, items, f, priority, index)
    ensures f.priority == priority && f.index == index
  {
  }

  lemma {:induction false} RunSafe(setup: Setup, w: World, events: seq<Event>)
    requires Safe(setup, w) && Feasible(setup, w, events)
    ensures Safe(setup, Run(setup, w, events))
    decreases |events|
  {
    hide Safe, Step;
    if events != [] {
      StepSafe(setup, w, events[0]);
      RunSafe(setup, Step(setup, w, events[0]), events[1..]);
    }
  }

  lemma {:induction false} OrderEntryNumbered(w: World, accounts: seq<Account>)
    requires Numbered(w)
    ensures var w' := CreateOrderEntry(w, accounts);
            Numbered(w') && w'.(streamId := w.streamId, created := w.created) == w
  {
    if accounts != [] {
      OrderEntryNumbered(w, accounts[..|accounts| - 1]);
    }
  }

  lemma {:induction false} OrderEntryMarginNumbered(w: World, accounts: seq<Account>)
    requires Numbered(w)
    ensures var w' := CreateOrderEntryMargin(w, accounts);
            Numbered(w') && w'.(streamId := w.streamId, created := w.created) == w
  {
    if accounts != [] {
      OrderEntryMarginNumbered(w, accounts[..|accounts| - 1]);
    }
  }

  lemma InitiallySafe(setup: Setup)
    ensures Safe(setup, Initial(setup))
  {
    var w := Create(NOTHING, REST);
    OrderEntryNumbered(w, setup.accounts);
    OrderEntryMarginNumbered(CreateOrderEntry(w, setup.accounts), setup.accounts);
  }

  // --- main results

  lemma {:induction false} CountDistinct(items: seq<string>, x: string)
    requires Distinct(items)
    ensures multiset(items)[x] == if x in items then 1 else 0
  {
    if items != [] {
      var front, last := items[..|items| - 1], items[|items| - 1];
      assert items == front + [last];
      CountDistinct(front, x);
    }
  }

  /** Exactly once: in every state of every run, a stream that is ready has subscribed to each symbol of
      its slice exactly once on each of its channels, over the messages sent on this connection and the
      ones still queued, and to nothing else. */
  lemma SubscribedExactlyOnce(setup: Setup, events: seq<Event>, priority: Priority, i: nat, symbol: string, channel: string)
    requires Feasible(setup, Initial(setup), events)
    ensures var w := Run(setup, Initial(setup), events);
            i < |Feeds(w, priority)| && Feeds(w, priority)[i].ready ==>
              var f := Feeds(w, priority)[i];
              multiset(ForChannel(f.sent + f.queue, channel))[symbol]
              == if channel in Channels(setup.settings, priority) && symbol in Slice(w.items, setup.max, i, 0) then 1 else 0
  {
    InitiallySafe(setup);
    RunSafe(setup, Initial(setup), events);
    var w := Run(setup, Initial(setup), events);
    hide Run, Feasible, Initial, Safe, FeedSafe, ForChannel, Slice, Channels;
    if i < |Feeds(w, priority)| && Feeds(w, priority)[i].ready {
      ReadyCovers(setup, w, priority, i, channel);
      CountDistinct(Slice(w.items, setup.max, i, 0), symbol);
      assert multiset([])[symbol] == 0;
    }
  }

  /** The names of the channels, each with the streams that have it. */
  lemma ChannelNames(settings: Settings, priority: Priority)
    ensures var channels, depth := Channels(settings, priority), "depth@" + Decimal(settings.depthFreq) + "ms";
            && ("trade" in channels <==> priority == PRIMARY && settings.tradeDetails)
            && ("aggTrade" in channels <==> priority == PRIMARY && !settings.tradeDetails)
            && ("miniTicker" in channels <==> priority == PRIMARY)
            && "bookTicker" in channels
            && depth in channels
            && ("kline_1m" in channels <==> settings.timeSeries)
            && forall channel :: channel in channels ==>
                 channel in {"trade", "aggTrade", "miniTicker", "bookTicker", depth, "kline_1m"}
  {
    hide Decimal;
    var depth := "depth@" + Decimal(settings.depthFreq) + "ms";
    assert depth[0] == 'd';
    assert "trade"[0] == 't' && "aggTrade"[0] == 'a' && "miniTicker"[0] == 'm' && "bookTicker"[0] == 'b' && "kline_1m"[0] == 'k';
  }

  /** How often a symbol has been subscribed to on a channel, in messages sent or queued. */
  function Times(f: Feed, channel: string, symbol: string): nat {
    multiset(ForChannel(f.sent + f.queue, channel))[symbol]
  }

  /** The same, channel by channel. Each symbol of the slice is subscribed to once for the best prices and
      once for the depth at the configured frequency, on either kind of stream, and once for candles if
      these are enabled; for trades, in the one form or the other, and for statistics only on a primary
      stream. No symbol is on any other channel, and no symbol of another slice is on any. */
  lemma SubscribedByName(setup: Setup, events: seq<Event>, priority: Priority, i: nat, symbol: string)
    requires Feasible(setup, Initial(setup), events)
    ensures var w, s := Run(setup, Initial(setup), events), setup.settings;
            i < |Feeds(w, priority)| && Feeds(w, priority)[i].ready ==>
              var f, once := Feeds(w, priority)[i], if symbol in Slice(w.items, setup.max, i, 0) then 1 else 0;
              && Times(f, "trade", symbol) == (if priority == PRIMARY && s.tradeDetails then once else 0)
              && Times(f, "aggTrade", symbol) == (if priority == PRIMARY && !s.tradeDetails then once else 0)
              && Times(f, "miniTicker", symbol) == (if priority == PRIMARY then once else 0)
              && Times(f, "bookTicker", symbol) == once
              && Times(f, "depth@" + Decimal(s.depthFreq) + "ms", symbol) == once
              && Times(f, "kline_1m", symbol) == (if s.timeSeries then once else 0)
              && forall channel ::
                   channel !in {"trade", "aggTrade", "miniTicker", "bookTicker", "depth@" + Decimal(s.depthFreq) + "ms", "kline_1m"} ==>
                     Times(f, channel, symbol) == 0
  {
    hide *;
    var w, s := Run(setup, Initial(setup), events), setup.settings;
    if i < |Feeds(w, priority)| && Feeds(w, priority)[i].ready {
      forall channel
        ensures Times(Feeds(w, priority)[i], channel, symbol)
                == if channel in Channels(s, priority) && symbol in Slice(w.items, setup.max, i, 0) then 1 else 0
      {
        TimesOnce(setup, events, priority, i, symbol, channel);
      }
      ChannelNames(s, priority);
    }
  }

  lemma TimesOnce(setup: Setup, events: seq<Event>, priority: Priority, i: nat, symbol: string, channel: string)
    requires Feasible(setup, Initial(setup), events)
    ensures var w := Run(setup, Initial(setup), events);
            i < |Feeds(w, priority)| && Feeds(w, priority)[i].ready ==>
              Times(Feeds(w, priority)[i], channel, symbol)
              == if channel in Channels(setup.settings, priority) && symbol in Slice(w.items, setup.max, i, 0) then 1 else 0
  {
    SubscribedExactlyOnce(setup, events, priority, i, symbol, channel);
    hide Run, Feasible, Initial, Feeds, Channels, Slice, ForChannel;
  }

  lemma ReadyCovers(setup: Setup, w: World, priority: Priority, i: nat, channel: string)
    requires Safe(setup, w) && i < |Feeds(w, priority)| && Feeds(w, priority)[i].ready
    ensures var f := Feeds(w, priority)[i];
            ForChannel(f.sent + f.queue, channel) == if channel in Channels(setup.settings, priority) then Slice(w.items, setup.max, i, 0) else []
    ensures Distinct(Slice(w.items, setup.max, i, 0))
  {
    hide ForChannel, Channels, SliceCount, Numbered;
    assert FeedSafe(setup, w.items, Feeds(w, priority)[i], priority, i);
  }

  /** The slices of the streams partition the symbols: no symbol is listed twice, every symbol is on one
      slice only, one after the other the slices are the whole list, there is a primary stream for each,
      a secondary one if so configured, and none exceeds the limit. */
  lemma SlicesCoverSymbols(setup: Setup, events: seq<Event>)
    requires Feasible(setup, Initial(setup), events)
    ensures var w := Run(setup, Initial(setup), events);
            && Distinct(w.items)
            && Concat(Slices(w.items, setup.max, |w.primary|)) == w.items
            && (forall i :: 0 <= i < |w.primary| ==> 0 < |Slice(w.items, setup.max, i, 0)| <= setup.max)
            && |w.secondary| == (if setup.settings.enableSecondary then |w.primary| else 0)
            && (forall x :: x in w.items <==> x in w.known)
  {
    InitiallySafe(setup);
    RunSafe(setup, Initial(setup), events);
    SlicesPartition(Run(setup, Initial(setup), events).items, setup.max);
  }

  /** Stream ids: over every run they are assigned contiguously from 1, in 16 bits; they are distinct if
      and only if no more than 65536 streams have been created. */
  lemma StreamIdsDistinct(setup: Setup, events: seq<Event>)
    requires Feasible(setup, Initial(setup), events)
    ensures var created := Run(setup, Initial(setup), events).created;
            && (forall i :: 0 <= i < |created| && i < TWO_16 - 1 ==> created[i].id == i + 1)
            && ((forall i, j :: 0 <= i < j < |created| ==> created[i].id != created[j].id) <==> |created| <= TWO_16)
  {
    hide FeedSafe, SliceCount;
    InitiallySafe(setup);
    RunSafe(setup, Initial(setup), events);
    NumbersDistinct(Run(setup, Initial(setup), events));
  }

  lemma NumbersDistinct(w: World)
    requires Numbered(w)
    ensures (forall i, j :: 0 <= i < j < |w.created| ==> w.created[i].id != w.created[j].id) <==> |w.created| <= TWO_16
  {
    if |w.created| > TWO_16 {
      assert w.created[0].id == w.created[TWO_16].id;
    }
  }
}
