/** Which streams the controller creates, how often each of them, and how they number their messages. */
module ControllerStreams {
  import opened Accounts
  import opened Words
  import opened Symbols
  import opened MarketData
  import opened Controller
  import opened ControllerRun

  function Count(created: seq<Created>, kind: Kind): nat {
    if created == [] then 0
    else Count(created[..|created| - 1], kind) + if created[|created| - 1].kind == kind then 1 else 0
  }

  lemma CountAppend(created: seq<Created>, c: Created, kind: Kind)
    ensures Count(created + [c], kind) == Count(created, kind) + if c.kind == kind then 1 else 0
  {
    assert (created + [c])[..|created|] == created;
  }

  /** The number of accounts of a name that are, or are not, portfolio accounts. */
  function HowMany(accounts: seq<Account>, name: string, portfolio: bool): nat {
    if accounts == [] then 0
    else
      var last := accounts[|accounts| - 1];
      HowMany(accounts[..|accounts| - 1], name, portfolio) + if last.name == name && (last.mode == PORTFOLIO) == portfolio then 1 else 0
  }

  lemma HowManyLast(accounts: seq<Account>, name: string, portfolio: bool)
    requires accounts != []
    ensures var last := accounts[|accounts| - 1];
            HowMany(accounts, name, portfolio) ==
            HowMany(accounts[..|accounts| - 1], name, portfolio) + if last.name == name && (last.mode == PORTFOLIO) == portfolio then 1 else 0
  {
  }

  /** How many streams of a kind there are. */
  function Expected(setup: Setup, w: World, kind: Kind): nat {
    match kind
    case REST => 1
    case WEB_SOCKET(name) => HowMany(setup.accounts, name, false)
    case ORDER_ENTRY_PORTFOLIO(name) => HowMany(setup.accounts, name, true)
    case ORDER_ENTRY_MARGIN(name) => if setup.dropMargin then 0 else HowMany(setup.accounts, name, false)
    case DROP_COPY(name) => if name in w.dropCopies then 1 else 0
    case DROP_COPY_MARGIN(name) => if name in w.marginDropCopies then 1 else 0
    case MARKET_DATA(priority, index) => if index < |Feeds(w, priority)| then 1 else 0
  }

  ghost predicate Counted(setup: Setup, w: World) {
    forall kind :: Count(w.created, kind) == Expected(setup, w, kind)
  }

  /** A market-data stream goes by the id under which it was created. */
  ghost predicate Identified(w: World) {
    && (forall i :: 0 <= i < |w.primary| ==> Created(w.primary[i].streamId, MARKET_DATA(PRIMARY, i)) in w.created)
    && (forall i :: 0 <= i < |w.secondary| ==> Created(w.secondary[i].streamId, MARKET_DATA(SECONDARY, i)) in w.created)
  }

  // --- the streams of the beginning

  lemma {:induction false} OrderEntryCounted(w: World, accounts: seq<Account>, kind: Kind)
    ensures var w' := CreateOrderEntry(w, accounts);
            && w'.(streamId := w.streamId, created := w.created) == w
            && Count(w'.created, kind) == Count(w.created, kind) +
               match kind
               case WEB_SOCKET(name) => HowMany(accounts, name, false)
               case ORDER_ENTRY_PORTFOLIO(name) => HowMany(accounts, name, true)
               case _ => 0
  {
    if accounts != [] {
      var front, last := accounts[..|accounts| - 1], accounts[|accounts| - 1];
      OrderEntryCounted(w, front, kind);
      var w1 := CreateOrderEntry(w, front);
      CountAppend(w1.created, Created((w1.streamId + 1) % TWO_16, OrderEntryKind(last)), kind);
      hide Count, HowMany;
      if kind.WEB_SOCKET? {
        HowManyLast(accounts, kind.account, false);
      } else if kind.ORDER_ENTRY_PORTFOLIO? {
        HowManyLast(accounts, kind.account, true);
      }
    }
  }

  lemma {:induction false} OrderEntryMarginCounted(w: World, accounts: seq<Account>, kind: Kind)
    ensures var w' := CreateOrderEntryMargin(w, accounts);
            && w'.(streamId := w.streamId, created := w.created) == w
            && Count(w'.created, kind) == Count(w.created, kind) +
               match kind
               case ORDER_ENTRY_MARGIN(name) => HowMany(accounts, name, false)
               case _ => 0
  {
    if accounts != [] {
      var front, last := accounts[..|accounts| - 1], accounts[|accounts| - 1];
      OrderEntryMarginCounted(w, front, kind);
      var w1 := CreateOrderEntryMargin(w, front);
      CountAppend(w1.created, Created((w1.streamId + 1) % TWO_16, ORDER_ENTRY_MARGIN(last.name)), kind);
      hide Count, HowMany;
      if kind.ORDER_ENTRY_MARGIN? {
        HowManyLast(accounts, kind.account, false);
      }
    }
  }

  lemma InitiallyCounted(setup: Setup)
    ensures Counted(setup, Initial(setup)) && Identified(Initial(setup))
  {
    var rest := Create(NOTHING, REST);
    assert NOTHING.created + [Created(1, REST)] == [Created(1, REST)];
    forall kind
      ensures Count(Initial(setup).created, kind) == Expected(setup, Initial(setup), kind)
    {
      CountAppend([], Created(1, REST), kind);
      OrderEntryCounted(rest, setup.accounts, kind);
      OrderEntryMarginCounted(CreateOrderEntry(rest, setup.accounts), setup.accounts, kind);
      hide HowMany;
    }
    OrderEntryCounted(rest, setup.accounts, REST);
    OrderEntryMarginCounted(CreateOrderEntry(rest, setup.accounts), setup.accounts, REST);
  }

  // --- the streams of a run

  /** One more stream, of a kind of which one more is expected. */
  lemma CreateCounted(setup: Setup, w: World, kind: Kind, w': World)
    requires Counted(setup, w) && Identified(w)
    requires w'.created == Create(w, kind).created
    requires forall k :: Expected(setup, w', k) == Expected(setup, w, k) + if k == kind then 1 else 0
    ensures Counted(setup, w')
  {
    var c := Created((w.streamId + 1) % TWO_16, kind);
    hide Expected;
    forall k
      ensures Count(w'.created, k) == Expected(setup, w', k)
    {
      CountAppend(w.created, c, k);
    }
  }

  lemma {:induction false} EnsurePrimaryCounted(setup: Setup, w: World, size: nat)
    requires Counted(setup, w) && Identified(w)
    ensures Counted(setup, EnsurePrimary(w, size)) && Identified(EnsurePrimary(w, size))
    decreases size - |w.primary|
  {
    if |w.primary| < size {
      var kind := MARKET_DATA(PRIMARY, |w.primary|);
      var w1 := Create(w, kind);
      var w2 := w1.(primary := w.primary + [NewFeed(w1.streamId, |w.primary|, PRIMARY)]);
      assert Counted(setup, w2) by {
        hide HowMany, Counted, Identified;
        CreateCounted(setup, w, kind, w2);
      }
      assert w2.created[|w.created|] == Created(w1.streamId, kind);
      assert Identified(w2) by {
        hide Counted;
      }
      hide Counted, Identified;
      EnsurePrimaryCounted(setup, w2, size);
    }
  }

  lemma {:induction false} EnsureSecondaryCounted(setup: Setup, w: World, size: nat)
    requires Counted(setup, w) && Identified(w)
    ensures Counted(setup, EnsureSecondary(w, size)) && Identified(EnsureSecondary(w, size))
    decreases size - |w.secondary|
  {
    if |w.secondary| < size {
      var kind := MARKET_DATA(SECONDARY, |w.secondary|);
      var w1 := Create(w, kind);
      var w2 := w1.(secondary := w.secondary + [NewFeed(w1.streamId, |w.secondary|, SECONDARY)]);
      assert Counted(setup, w2) by {
        hide HowMany, Counted, Identified;
        CreateCounted(setup, w, kind, w2);
      }
      assert w2.created[|w.created|] == Created(w1.streamId, kind);
      assert Identified(w2) by {
        hide Counted;
      }
      hide Counted, Identified;
      EnsureSecondaryCounted(setup, w2, size);
    }
  }

  /** Feeds that go by the same ids. */
  predicate SameIds(before: seq<Feed>, after: seq<Feed>) {
    |before| == |after| && forall i :: 0 <= i < |before| ==> after[i].streamId == before[i].streamId
  }

  lemma SameStreams(setup: Setup, w: World, w': World)
    requires Counted(setup, w) && Identified(w) && w'.created == w.created
    requires SameIds(w.primary, w'.primary) && SameIds(w.secondary, w'.secondary)
    requires w'.dropCopies == w.dropCopies && w'.marginDropCopies == w.marginDropCopies
    ensures Counted(setup, w') && Identified(w')
  {
    hide HowMany, Count;
    forall kind
      ensures Expected(setup, w', kind) == Expected(setup, w, kind)
    {
    }
  }

  lemma {:induction false} PushAllKeeps(f: Feed, symbols: seq<string>, channels: seq<string>)
    ensures PushAll(f, symbols, channels).streamId == f.streamId
  {
    if channels != [] {
      PushAllKeeps(f, symbols, channels[..|channels| - 1]);
    }
  }

  lemma SubscribeKeeps(setup: Setup, items: seq<string>, f: Feed, startFrom: nat)
    ensures SubscribeFrom(setup.settings, items, setup.max, f, startFrom).streamId == f.streamId
  {
    hide Slice, Channels;
    PushAllKeeps(f, Slice(items, setup.max, f.index, startFrom), Channels(setup.settings, f.priority));
  }

  lemma UpdateCounted(setup: Setup, w: World, known: set<string>, added: seq<string>)
    requires Counted(setup, w) && Identified(w)
    ensures var w' := SymbolsUpdate(setup, w.(known := known), added);
            Counted(setup, w') && Identified(w')
  {
    hide Counted, Identified, SubscribeFrom, SliceCount, EnsurePrimary, EnsureSecondary;
    var items := w.items + added;
    var w0 := w.(known := known, items := items);
    SameStreams(setup, w, w0);
    EnsurePrimaryCounted(setup, w0, SliceCount(|items|, setup.max));
    EnsureSecondaryCounted(setup, EnsurePrimary(w0, SliceCount(|items|, setup.max)), SliceCount(|items|, setup.max));
    var w1 := EnsureSlices(setup, w0, SliceCount(|items|, setup.max));
    forall f: Feed
      ensures SubscribeFrom(setup.settings, items, setup.max, f, |w.items|).streamId == f.streamId
    {
      SubscribeKeeps(setup, items, f, |w.items|);
    }
    SameStreams(setup, w1, SymbolsUpdate(setup, w.(known := known), added));
  }

  lemma ListenKeyCounted(setup: Setup, w: World, account: string, mode: MarginMode)
    requires Counted(setup, w) && Identified(w)
    ensures var w' := ListenKeyUpdate(w, account, mode);
            Counted(setup, w') && Identified(w')
  {
    var w' := ListenKeyUpdate(w, account, mode);
    if w'.created != w.created {
      assert Identified(w');
      hide Counted, Identified, HowMany;
      CreateCounted(setup, w, if mode == PORTFOLIO then DROP_COPY(account) else DROP_COPY_MARGIN(account), w');
    }
  }

  lemma FeedStepCounted(setup: Setup, w: World, e: Event, priority: Priority, i: nat)
    requires Counted(setup, w) && Identified(w) && Enabled(w, e)
    requires e == FeedReady(priority, i) || e == FeedLost(priority, i) || (e.FeedTick? && e.priority == priority && e.i == i)
    ensures Counted(setup, Step(setup, w, e)) && Identified(Step(setup, w, e))
  {
    var f := Feeds(w, priority)[i];
    SubscribeKeeps(setup, w.items, f.(ready := true), 0);
    hide Counted, Identified, SubscribeFrom;
    SameStreams(setup, w, Step(setup, w, e));
  }

  lemma StepCounted(setup: Setup, w: World, e: Event)
    requires Counted(setup, w) && Identified(w) && Enabled(w, e)
    ensures Counted(setup, Step(setup, w, e)) && Identified(Step(setup, w, e))
  {
    match e
    case Exchange(listings) =>
      hide Counted, Identified, SymbolsUpdate;
      UpdateCounted(setup, w, Added(w.known, Normalised(listings)).1, Added(w.known, Normalised(listings)).0);
      SameStreams(setup, w, w.(known := Added(w.known, Normalised(listings)).1));
    case Request(symbols) =>
      hide Counted, Identified, SymbolsUpdate;
      UpdateCounted(setup, w, Added(w.known, symbols).1, Added(w.known, symbols).0);
    case ListenKey(account, mode) => ListenKeyCounted(setup, w, account, mode);
    case FeedReady(p, i) => FeedStepCounted(setup, w, e, p, i);
    case FeedLost(p, i) => FeedStepCounted(setup, w, e, p, i);
    case FeedTick(p, i, n) => FeedStepCounted(setup, w, e, p, i);
  }

  lemma {:induction false} RunCounted(setup: Setup, w: World, events: seq<Event>)
    requires Counted(setup, w) && Identified(w) && Feasible(setup, w, events)
    ensures Counted(setup, Run(setup, w, events)) && Identified(Run(setup, w, events))
    decreases |events|
  {
    hide Counted, Identified, Step, Enabled;
    if events != [] {
      StepCounted(setup, w, events[0]);
      RunCounted(setup, Step(setup, w, events[0]), events[1..]);
    }
  }

  // --- drop copies

  lemma UpdateKeepsCopies(setup: Setup, w: World, known: set<string>, added: seq<string>)
    requires Numbered(w)
    ensures var w' := SymbolsUpdate(setup, w.(known := known), added);
            w'.dropCopies == w.dropCopies && w'.marginDropCopies == w.marginDropCopies
  {
    hide SliceCount, EnsurePrimary, EnsureSecondary;
    var items := w.items + added;
    var w0 := w.(known := known, items := items);
    EnsurePrimaryAdds(w0, SliceCount(|items|, setup.max));
    EnsureSecondaryAdds(EnsurePrimary(w0, SliceCount(|items|, setup.max)), SliceCount(|items|, setup.max));
  }

  lemma StepCopies(setup: Setup, w: World, e: Event, a: string)
    requires Safe(setup, w) && Enabled(w, e)
    ensures a in Step(setup, w, e).dropCopies <==> a in w.dropCopies || e == ListenKey(a, PORTFOLIO)
    ensures a in Step(setup, w, e).marginDropCopies <==>
            a in w.marginDropCopies || e == ListenKey(a, ISOLATED) || e == ListenKey(a, CROSS)
  {
    hide SymbolsUpdate, FeedSafe, Numbered, SliceCount;
    match e
    case Exchange(listings) => UpdateKeepsCopies(setup, w, Added(w.known, Normalised(listings)).1, Added(w.known, Normalised(listings)).0);
    case Request(symbols) => UpdateKeepsCopies(setup, w, Added(w.known, symbols).1, Added(w.known, symbols).0);
    case _ =>
  }

  lemma {:induction false} RunCopies(setup: Setup, w: World, events: seq<Event>, a: string)
    requires Safe(setup, w) && Feasible(setup, w, events)
    ensures a in Run(setup, w, events).dropCopies <==> a in w.dropCopies || ListenKey(a, PORTFOLIO) in events
    ensures a in Run(setup, w, events).marginDropCopies <==>
            a in w.marginDropCopies || ListenKey(a, ISOLATED) in events || ListenKey(a, CROSS) in events
    decreases |events|
  {
    hide Safe, Step, Enabled;
    if events != [] {
      StepSafe(setup, w, events[0]);
      StepCopies(setup, w, events[0], a);
      RunCopies(setup, Step(setup, w, events[0]), events[1..], a);
      assert events == [events[0]] + events[1..];
    }
  }

  lemma InitialCopies(setup: Setup)
    ensures Initial(setup).dropCopies == {} && Initial(setup).marginDropCopies == {}
  {
    var rest := Create(NOTHING, REST);
    OrderEntryCounted(rest, setup.accounts, REST);
    OrderEntryMarginCounted(CreateOrderEntry(rest, setup.accounts), setup.accounts, REST);
  }

  /** In every state of every run: one REST stream; per account one order-entry stream of its kind, and one
      for margin as well unless the account is a portfolio account or margin streams are left out; one drop
      copy of either kind per account exactly if there was a listen key of that mode, however often it was
      renewed; and one market-data stream per slice and priority, which goes by the id it was created under. */
  lemma StreamsCreated(setup: Setup, events: seq<Event>, name: string, priority: Priority, i: nat)
    requires Feasible(setup, Initial(setup), events)
    ensures var w := Run(setup, Initial(setup), events);
            && Count(w.created, REST) == 1
            && Count(w.created, WEB_SOCKET(name)) == HowMany(setup.accounts, name, false)
            && Count(w.created, ORDER_ENTRY_PORTFOLIO(name)) == HowMany(setup.accounts, name, true)
            && Count(w.created, ORDER_ENTRY_MARGIN(name)) == (if setup.dropMargin then 0 else HowMany(setup.accounts, name, false))
            && Count(w.created, DROP_COPY(name)) == (if ListenKey(name, PORTFOLIO) in events then 1 else 0)
            && Count(w.created, DROP_COPY_MARGIN(name)) ==
               (if ListenKey(name, ISOLATED) in events || ListenKey(name, CROSS) in events then 1 else 0)
            && Count(w.created, MARKET_DATA(priority, i)) == (if i < |Feeds(w, priority)| then 1 else 0)
            && (i < |Feeds(w, priority)| ==> Created(Feeds(w, priority)[i].streamId, MARKET_DATA(priority, i)) in w.created)
  {
    InitiallySafe(setup);
    InitiallyCounted(setup);
    InitialCopies(setup);
    hide Safe, Initial, Run, Feasible, Count, HowMany;
    RunCounted(setup, Initial(setup), events);
    RunCopies(setup, Initial(setup), events, name);
  }

  // --- numbers of messages

  /** The messages of a connection name at least one symbol and carry consecutive numbers, up to the last one
      drawn; the numbers of a stream begin behind a million times its id, and go on across connections. */
  ghost predicate Consecutive(f: Feed) {
    exists n: nat :: |f.sent + f.queue| <= n && NumberedUpTo(f, n)
  }

  ghost predicate NumberedUpTo(f: Feed, n: nat) {
    var all := f.sent + f.queue;
    && f.requestId == (f.streamId * 1_000_000 + n) % TWO_64
    && forall j :: 0 <= j < |all| ==> all[j].symbols != [] && all[j].id == (f.streamId * 1_000_000 + n - |all| + 1 + j) % TWO_64
  }

  lemma NextNumber(x: int)
    ensures (x % TWO_64 + 1) % TWO_64 == (x + 1) % TWO_64
  {
  }

  lemma PushConsecutive(f: Feed, symbols: seq<string>, channel: string)
    requires Consecutive(f) && symbols != []
    ensures Consecutive(Push(f, symbols, channel))
  {
    var n: nat :| |f.sent + f.queue| <= n && NumberedUpTo(f, n);
    var g := Push(f, symbols, channel);
    NextNumber(f.streamId * 1_000_000 + n);
    var all := f.sent + f.queue;
    assert g.sent + g.queue == all + [Message(symbols, channel, g.requestId)];
    assert NumberedUpTo(g, n + 1);
  }

  lemma {:induction false} PushAllConsecutive(f: Feed, symbols: seq<string>, channels: seq<string>)
    requires Consecutive(f) && symbols != []
    ensures Consecutive(PushAll(f, symbols, channels))
  {
    hide Consecutive, Push;
    if channels != [] {
      PushAllConsecutive(f, symbols, channels[..|channels| - 1]);
      PushConsecutive(PushAll(f, symbols, channels[..|channels| - 1]), symbols, channels[|channels| - 1]);
    }
  }

  lemma SubscribeConsecutive(setup: Setup, items: seq<string>, f: Feed, startFrom: nat)
    requires Consecutive(f)
    ensures Consecutive(SubscribeFrom(setup.settings, items, setup.max, f, startFrom))
  {
    hide Consecutive, Slice, Channels;
    if Slice(items, setup.max, f.index, startFrom) != [] {
      PushAllConsecutive(f, Slice(items, setup.max, f.index, startFrom), Channels(setup.settings, f.priority));
    }
  }

  lemma SameNumbers(f: Feed, g: Feed)
    requires Consecutive(f) && g.streamId == f.streamId && g.requestId == f.requestId
    requires g.sent + g.queue == f.sent + f.queue || g.sent + g.queue == []
    ensures Consecutive(g)
  {
    var n: nat :| |f.sent + f.queue| <= n && NumberedUpTo(f, n);
    assert NumberedUpTo(g, n);
  }

  lemma NewConsecutive(streamId: uint16, index: nat, priority: Priority)
    ensures Consecutive(NewFeed(streamId, index, priority))
  {
    assert NumberedUpTo(NewFeed(streamId, index, priority), 0);
  }

  ghost predicate AllConsecutive(w: World) {
    (forall f :: f in w.primary ==> Consecutive(f)) && (forall f :: f in w.secondary ==> Consecutive(f))
  }

  lemma {:induction false} EnsurePrimaryConsecutive(w: World, size: nat)
    requires AllConsecutive(w)
    ensures AllConsecutive(EnsurePrimary(w, size))
    decreases size - |w.primary|
  {
    hide Consecutive, NewFeed;
    if |w.primary| < size {
      var w1 := Create(w, MARKET_DATA(PRIMARY, |w.primary|));
      NewConsecutive(w1.streamId, |w.primary|, PRIMARY);
      EnsurePrimaryConsecutive(w1.(primary := w.primary + [NewFeed(w1.streamId, |w.primary|, PRIMARY)]), size);
    }
  }

  lemma {:induction false} EnsureSecondaryConsecutive(w: World, size: nat)
    requires AllConsecutive(w)
    ensures AllConsecutive(EnsureSecondary(w, size))
    decreases size - |w.secondary|
  {
    hide Consecutive, NewFeed;
    if |w.secondary| < size {
      var w1 := Create(w, MARKET_DATA(SECONDARY, |w.secondary|));
      NewConsecutive(w1.streamId, |w.secondary|, SECONDARY);
      EnsureSecondaryConsecutive(w1.(secondary := w.secondary + [NewFeed(w1.streamId, |w.secondary|, SECONDARY)]), size);
    }
  }

  lemma UpdateConsecutive(setup: Setup, w: World, known: set<string>, added: seq<string>)
    requires AllConsecutive(w)
    ensures AllConsecutive(SymbolsUpdate(setup, w.(known := known), added))
  {
    hide Consecutive, SubscribeFrom, SliceCount, EnsurePrimary, EnsureSecondary;
    var items := w.items + added;
    var size := SliceCount(|items|, setup.max);
    var w0 := w.(known := known, items := items);
    EnsurePrimaryConsecutive(w0, size);
    EnsureSecondaryConsecutive(EnsurePrimary(w0, size), size);
    forall f: Feed | Consecutive(f)
      ensures Consecutive(SubscribeFrom(setup.settings, items, setup.max, f, |w.items|))
    {
      SubscribeConsecutive(setup, items, f, |w.items|);
    }
  }

  lemma FeedStepConsecutive(setup: Setup, w: World, e: Event, priority: Priority, i: nat)
    requires AllConsecutive(w) && Enabled(w, e)
    requires e == FeedReady(priority, i) || e == FeedLost(priority, i) || (e.FeedTick? && e.priority == priority && e.i == i)
    ensures AllConsecutive(Step(setup, w, e))
  {
    hide Consecutive, SubscribeFrom;
    var f := Feeds(w, priority)[i];
    assert Consecutive(f);
    SameNumbers(f, f.(ready := true));
    SubscribeConsecutive(setup, w.items, f.(ready := true), 0);
    SameNumbers(f, OnLost(f));
    if e.FeedTick? {
      assert f.queue[..e.n] + f.queue[e.n..] == f.queue;
      SameNumbers(f, Drain(f, e.n));
    }
  }

  lemma {:induction false} RunConsecutive(setup: Setup, w: World, events: seq<Event>)
    requires AllConsecutive(w) && Feasible(setup, w, events)
    ensures AllConsecutive(Run(setup, w, events))
    decreases |events|
  {
    if events != [] {
      assert AllConsecutive(Step(setup, w, events[0])) by {
        hide AllConsecutive, SymbolsUpdate;
        match events[0]
        case Exchange(listings) => UpdateConsecutive(setup, w, Added(w.known, Normalised(listings)).1, Added(w.known, Normalised(listings)).0);
          SameFeeds(w, w.(known := Added(w.known, Normalised(listings)).1));
        case Request(symbols) => UpdateConsecutive(setup, w, Added(w.known, symbols).1, Added(w.known, symbols).0);
        case ListenKey(account, mode) => SameFeeds(w, ListenKeyUpdate(w, account, mode));
        case FeedReady(p, i) => FeedStepConsecutive(setup, w, events[0], p, i);
        case FeedLost(p, i) => FeedStepConsecutive(setup, w, events[0], p, i);
        case FeedTick(p, i, n) => FeedStepConsecutive(setup, w, events[0], p, i);
      }
      hide AllConsecutive, Step, Enabled;
      RunConsecutive(setup, Step(setup, w, events[0]), events[1..]);
    }
  }

  lemma SameFeeds(w: World, w': World)
    requires AllConsecutive(w) && w'.primary == w.primary && w'.secondary == w.secondary
    ensures AllConsecutive(w')
  {
    hide Consecutive;
  }

  /** In every state of every run, the messages sent and queued on a connection of a market-data stream carry
      consecutive 64-bit numbers up to the last one drawn, out of the block that begins a million times the
      id of the stream; and none of them is about no symbol at all. */
  lemma MessageNumbers(setup: Setup, events: seq<Event>, priority: Priority, i: nat) returns (n: nat)
    requires Feasible(setup, Initial(setup), events) && i < |Feeds(Run(setup, Initial(setup), events), priority)|
    ensures var f := Feeds(Run(setup, Initial(setup), events), priority)[i];
            var all := f.sent + f.queue;
            && |all| <= n
            && forall j :: 0 <= j < |all| ==> all[j].symbols != [] && all[j].id == (f.streamId * 1_000_000 + n - |all| + 1 + j) % TWO_64
  {
    assert AllConsecutive(Initial(setup)) by {
      var rest := Create(NOTHING, REST);
      OrderEntryCounted(rest, setup.accounts, REST);
      OrderEntryMarginCounted(CreateOrderEntry(rest, setup.accounts), setup.accounts, REST);
    }
    RunConsecutive(setup, Initial(setup), events);
    var f := Feeds(Run(setup, Initial(setup), events), priority)[i];
    hide Initial, Run, Feasible;
    assert Consecutive(f);
    n :| |f.sent + f.queue| <= n && NumberedUpTo(f, n);
  }

  // --- connections

  predicate IsReady(w: World, priority: Priority, i: nat) {
    i < |Feeds(w, priority)| && Feeds(w, priority)[i].ready
  }

  lemma {:induction false} PushAllKeepsReady(f: Feed, symbols: seq<string>, channels: seq<string>)
    ensures PushAll(f, symbols, channels).ready == f.ready
  {
    if channels != [] {
      PushAllKeepsReady(f, symbols, channels[..|channels| - 1]);
    }
  }

  lemma SubscribeKeepsReady(setup: Setup, items: seq<string>, f: Feed, startFrom: nat)
    ensures SubscribeFrom(setup.settings, items, setup.max, f, startFrom).ready == f.ready
  {
    hide Slice, Channels;
    PushAllKeepsReady(f, Slice(items, setup.max, f.index, startFrom), Channels(setup.settings, f.priority));
  }

  lemma UpdateKeepsReady(setup: Setup, w: World, known: set<string>, added: seq<string>, priority: Priority, i: nat)
    requires Numbered(w)
    ensures IsReady(SymbolsUpdate(setup, w.(known := known), added), priority, i) <==> IsReady(w, priority, i)
  {
    hide SubscribeFrom, SliceCount, EnsurePrimary, EnsureSecondary;
    var items := w.items + added;
    var size := SliceCount(|items|, setup.max);
    var w0 := w.(known := known, items := items);
    EnsurePrimaryAdds(w0, size);
    EnsureSecondaryAdds(EnsurePrimary(w0, size), size);
    forall f: Feed
      ensures SubscribeFrom(setup.settings, items, setup.max, f, |w.items|).ready == f.ready
    {
      SubscribeKeepsReady(setup, items, f, |w.items|);
    }
  }

  lemma StepReady(setup: Setup, w: World, e: Event, priority: Priority, i: nat)
    requires Safe(setup, w) && Enabled(w, e)
    ensures IsReady(Step(setup, w, e), priority, i) <==>
            e == FeedReady(priority, i) || (IsReady(w, priority, i) && e != FeedLost(priority, i))
  {
    hide SymbolsUpdate, FeedSafe, Numbered, SliceCount, SubscribeFrom;
    match e
    case Exchange(listings) =>
      UpdateKeepsReady(setup, w, Added(w.known, Normalised(listings)).1, Added(w.known, Normalised(listings)).0, priority, i);
    case Request(symbols) => UpdateKeepsReady(setup, w, Added(w.known, symbols).1, Added(w.known, symbols).0, priority, i);
    case FeedReady(p, k) => SubscribeKeepsReady(setup, w.items, Feeds(w, p)[k].(ready := true), 0);
    case _ =>
  }

  /** The first event happens, and then the second one does not. */
  ghost predicate Lasts(events: seq<Event>, ready: Event, lost: Event) {
    exists n :: 0 <= n < |events| && events[n] == ready && lost !in events[n + 1..]
  }

  lemma LastsTail(events: seq<Event>, ready: Event, lost: Event)
    requires events != []
    ensures Lasts(events, ready, lost) <==> Lasts(events[1..], ready, lost) || (events[0] == ready && lost !in events[1..])
  {
    var rest := events[1..];
    if Lasts(events, ready, lost) {
      var n :| 0 <= n < |events| && events[n] == ready && lost !in events[n + 1..];
      if n > 0 {
        assert rest[n - 1] == ready && rest[n - 1 + 1..] == events[n + 1..];
      }
    }
    if Lasts(rest, ready, lost) {
      var n :| 0 <= n < |rest| && rest[n] == ready && lost !in rest[n + 1..];
      assert events[n + 1] == ready && events[n + 2..] == rest[n + 1..];
    }
  }

  lemma {:induction false} RunReady(setup: Setup, w: World, events: seq<Event>, priority: Priority, i: nat)
    requires Safe(setup, w) && Feasible(setup, w, events)
    ensures IsReady(Run(setup, w, events), priority, i) <==>
            || Lasts(events, FeedReady(priority, i), FeedLost(priority, i))
            || (IsReady(w, priority, i) && FeedLost(priority, i) !in events)
    decreases |events|
  {
    hide Safe, Step, Enabled, IsReady, Lasts;
    if events != [] {
      StepSafe(setup, w, events[0]);
      StepReady(setup, w, events[0], priority, i);
      RunReady(setup, Step(setup, w, events[0]), events[1..], priority, i);
      LastsTail(events, FeedReady(priority, i), FeedLost(priority, i));
      assert events == [events[0]] + events[1..];
    } else {
      assert !Lasts(events, FeedReady(priority, i), FeedLost(priority, i)) by {
        NeverLasts(FeedReady(priority, i), FeedLost(priority, i));
      }
    }
  }

  lemma NeverLasts(ready: Event, lost: Event)
    ensures !Lasts([], ready, lost)
  {
  }

  /** In every state of every run, a market-data stream is ready if and only if its last connection became
      ready and has not been lost since. */
  lemma ReadyIsHistory(setup: Setup, events: seq<Event>, priority: Priority, i: nat)
    requires Feasible(setup, Initial(setup), events)
    ensures IsReady(Run(setup, Initial(setup), events), priority, i) <==>
            exists n :: 0 <= n < |events| && events[n] == FeedReady(priority, i) && FeedLost(priority, i) !in events[n + 1..]
  {
    assert Lasts(events, FeedReady(priority, i), FeedLost(priority, i)) <==>
           exists n :: 0 <= n < |events| && events[n] == FeedReady(priority, i) && FeedLost(priority, i) !in events[n + 1..];
    InitiallySafe(setup);
    assert !IsReady(Initial(setup), priority, i) by {
      var rest := Create(NOTHING, REST);
      OrderEntryCounted(rest, setup.accounts, REST);
      OrderEntryMarginCounted(CreateOrderEntry(rest, setup.accounts), setup.accounts, REST);
    }
    hide Safe, Initial, IsReady, Lasts, Run, Feasible;
    RunReady(setup, Initial(setup), events, priority, i);
  }

  // --- draining

  function Ticks(priority: Priority, i: nat, counts: seq<nat>): (events: seq<Event>)
    ensures |events| == |counts| && forall k :: 0 <= k < |counts| ==> events[k] == FeedTick(priority, i, counts[k])
  {
    seq(|counts|, k requires 0 <= k < |counts| => FeedTick(priority, i, counts[k]))
  }

  function Sum(counts: seq<nat>): nat {
    if counts == [] then 0 else counts[0] + Sum(counts[1..])
  }

  lemma WithFeedTwice(w: World, priority: Priority, i: nat, f: Feed, g: Feed)
    requires i < |Feeds(w, priority)|
    ensures var w1 := WithFeed(w, priority, i, f);
            && |Feeds(w1, priority)| == |Feeds(w, priority)| && Feeds(w1, priority)[i] == f
            && WithFeed(w1, priority, i, g) == WithFeed(w, priority, i, g)
    ensures WithFeed(w, priority, i, Feeds(w, priority)[i]) == w
  {
  }

  lemma DrainTwice(f: Feed, m: nat, n: nat)
    requires m <= n <= |f.queue|
    ensures Drain(Drain(f, m), n - m) == Drain(f, n) && Drain(f, n) == f.(sent := f.sent + f.queue[..n], queue := f.queue[n..])
    ensures Drain(f, 0) == f
  {
    assert f.queue[m..][..n - m] == f.queue[m..n] && f.queue[m..][n - m..] == f.queue[n..];
    assert f.queue[..m] + f.queue[m..n] == f.queue[..n];
    assert f.sent + f.queue[..m] + f.queue[m..n] == f.sent + (f.queue[..m] + f.queue[m..n]);
    assert f.sent + f.queue[..0] == f.sent && f.queue[0..] == f.queue;
  }

  /** The ticks of a ready stream send the queue from its front, as many messages as the rate limiter lets
      pass in all, in their order, and keep the rest; all other streams are left alone. If the rate limiter
      lets pass as many as are queued, everything has been sent. */
  lemma {:induction false} TicksDrain(setup: Setup, w: World, priority: Priority, i: nat, counts: seq<nat>)
    requires i < |Feeds(w, priority)| && Feeds(w, priority)[i].ready && Sum(counts) <= |Feeds(w, priority)[i].queue|
    ensures Feasible(setup, w, Ticks(priority, i, counts))
    ensures var f, n := Feeds(w, priority)[i], Sum(counts);
            Run(setup, w, Ticks(priority, i, counts)) ==
            WithFeed(w, priority, i, f.(sent := f.sent + f.queue[..n], queue := f.queue[n..]))
    decreases |counts|
  {
    var f, n, events := Feeds(w, priority)[i], Sum(counts), Ticks(priority, i, counts);
    WithFeedTwice(w, priority, i, f, f);
    DrainTwice(f, 0, n);
    if counts != [] {
      var m := counts[0];
      var g := Drain(f, m);
      assert Step(setup, w, events[0]) == WithFeed(w, priority, i, g);
      assert g.ready && |g.queue| == |f.queue| - m;
      DrainTwice(f, m, n);
      WithFeedTwice(w, priority, i, g, Drain(f, n));
      hide Feeds, WithFeed, Drain, Step, Enabled;
      assert events[1..] == Ticks(priority, i, counts[1..]);
      assert Enabled(w, events[0]);
      TicksDrain(setup, WithFeed(w, priority, i, g), priority, i, counts[1..]);
    }
  }
}
