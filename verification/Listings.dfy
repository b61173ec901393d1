/** Symbols that share a stream. The exchange's listing is normalised; what a user asks for is listed as it
    comes. */
module Listings {
  import opened Ascii
  import opened Symbols
  import opened MarketData
  import opened Controller
  import opened ControllerRun
  import MarketStreamParser
  import SubscribeMessage

  function StreamName(symbol: string, channel: string): string {
    symbol + "@" + channel
  }

  lemma SameCase(a: char, b: char)
    ensures ToUpper(a) == ToUpper(b) <==> ToLower(a) == ToLower(b)
  {
  }

  lemma SameUpToCase(a: string, b: string)
    ensures Upper(a) == Upper(b) <==> Lower(a) == Lower(b)
  {
    if |a| == |b| {
      forall i | 0 <= i < |a|
        ensures Upper(a)[i] == Upper(b)[i] <==> Lower(a)[i] == Lower(b)[i]
      {
        SameCase(a[i], b[i]);
      }
    }
  }

  /** Two symbols print as the same name only if they are equal, but their names are parsed as the same
      stream of the same symbol if and only if they are equal up to case. */
  lemma SharedStream(a: string, b: string, channel: string)
    requires '@' !in a && '@' !in b
    ensures StreamName(a, channel) == StreamName(b, channel) <==> a == b
    ensures MarketStreamParser.ParseStream(StreamName(a, channel)) == MarketStreamParser.ParseStream(StreamName(b, channel)) <==>
            Lower(a) == Lower(b)
  {
    hide MarketStreamParser.ParseStream, MarketStreamParser.StreamOf, SubscribeMessage.ChannelName;
    SubscribeMessage.NameThenParse(a, channel);
    SubscribeMessage.NameThenParse(b, channel);
    SameUpToCase(a, b);
    if StreamName(a, channel) == StreamName(b, channel) {
      assert StreamName(a, channel)[..|a|] == a && StreamName(b, channel)[..|a|] == b;
    }
  }

  ghost predicate Plain(items: seq<string>) {
    forall x :: x in items ==> '@' !in x
  }

  /** No two listed symbols are subscribed to under names that mean the same stream. */
  ghost predicate NoneShared(items: seq<string>, channel: string) {
    forall i, j :: 0 <= i < j < |items| ==>
      MarketStreamParser.ParseStream(StreamName(items[i], channel)) != MarketStreamParser.ParseStream(StreamName(items[j], channel))
  }

  /** In every state of every run: no two listed symbols share a stream if and only if no two of them are
      equal up to case. */
  lemma SharedStreams(setup: Setup, events: seq<Event>, channel: string)
    requires Feasible(setup, Initial(setup), events) && Plain(Run(setup, Initial(setup), events).items)
    ensures var items := Run(setup, Initial(setup), events).items;
            NoneShared(items, channel) <==> forall i, j :: 0 <= i < j < |items| ==> Lower(items[i]) != Lower(items[j])
  {
    hide MarketStreamParser.ParseStream, StreamName, Lower;
    var items := Run(setup, Initial(setup), events).items;
    forall i, j | 0 <= i < j < |items|
      ensures MarketStreamParser.ParseStream(StreamName(items[i], channel)) != MarketStreamParser.ParseStream(StreamName(items[j], channel))
              <==> Lower(items[i]) != Lower(items[j])
    {
      SharedStream(items[i], items[j], channel);
    }
  }

  // --- requests in lower case

  ghost predicate LowerCase(list: seq<string>) {
    forall x :: x in list ==> Lower(x) == x
  }

  ghost predicate Polite(events: seq<Event>) {
    forall e :: e in events && e.Request? ==> LowerCase(e.symbols)
  }

  lemma LowerTwice(s: string)
    ensures Lower(Lower(s)) == Lower(s)
  {
    assert forall i :: 0 <= i < |s| ==> Lower(Lower(s))[i] == Lower(s)[i];
  }

  lemma {:induction false} NormalisedLower(listings: seq<Listing>)
    ensures LowerCase(Normalised(listings))
  {
    if listings != [] {
      NormalisedLower(listings[..|listings| - 1]);
      LowerTwice(listings[|listings| - 1].symbol);
    }
  }

  lemma {:induction false} AddedFrom(known: set<string>, list: seq<string>)
    ensures forall x :: x in Added(known, list).0 ==> x in list
  {
    if list != [] {
      AddedFrom(known, list[..|list| - 1]);
    }
  }

  lemma UpdatedItems(setup: Setup, w: World, added: seq<string>)
    requires Numbered(w)
    ensures SymbolsUpdate(setup, w, added).items == w.items + added
  {
    var size := SliceCount(|w.items + added|, setup.max);
    var w0 := w.(items := w.items + added);
    hide SliceCount;
    EnsurePrimaryAdds(w0, size);
    EnsureSecondaryAdds(EnsurePrimary(w0, size), size);
    hide EnsurePrimary, EnsureSecondary;
  }

  lemma StepLower(setup: Setup, w: World, e: Event)
    requires Safe(setup, w) && Enabled(w, e) && LowerCase(w.items) && (e.Request? ==> LowerCase(e.symbols))
    ensures LowerCase(Step(setup, w, e).items)
  {
    hide Lower, SymbolsUpdate, Added, Normalised, FeedSafe;
    match e
    case Exchange(listings) =>
      var (added, known) := Added(w.known, Normalised(listings));
      NormalisedLower(listings);
      AddedFrom(w.known, Normalised(listings));
      UpdatedItems(setup, w.(known := known), added);
    case Request(symbols) =>
      var (added, known) := Added(w.known, symbols);
      AddedFrom(w.known, symbols);
      UpdatedItems(setup, w.(known := known), added);
    case _ =>
  }

  lemma {:induction false} RunLower(setup: Setup, w: World, events: seq<Event>)
    requires Safe(setup, w) && Feasible(setup, w, events) && LowerCase(w.items) && Polite(events)
    ensures LowerCase(Run(setup, w, events).items)
    decreases |events|
  {
    hide Safe, Step, Enabled, LowerCase;
    if events != [] {
      assert events[0] in events;
      StepSafe(setup, w, events[0]);
      StepLower(setup, w, events[0]);
      RunLower(setup, Step(setup, w, events[0]), events[1..]);
    }
  }

  /** If users ask in lower case, as the listing of the exchange is kept, no stream is ever shared. */
  lemma LowerCaseSuffices(setup: Setup, events: seq<Event>, channel: string)
    requires Feasible(setup, Initial(setup), events) && Plain(Run(setup, Initial(setup), events).items) && Polite(events)
    ensures NoneShared(Run(setup, Initial(setup), events).items, channel)
  {
    InitiallySafe(setup);
    InitiallyEmpty(setup);
    RunSafe(setup, Initial(setup), events);
    RunLower(setup, Initial(setup), events);
    SharedStreams(setup, events, channel);
    var w := Run(setup, Initial(setup), events);
    assert Distinct(w.items);
    hide NoneShared, Lower, Run, FeedSafe;
    forall i, j | 0 <= i < j < |w.items|
      ensures Lower(w.items[i]) != Lower(w.items[j])
    {
      assert w.items[i] in w.items && w.items[j] in w.items;
    }
  }

  lemma InitiallyEmpty(setup: Setup)
    ensures Initial(setup).items == [] && Initial(setup).known == {}
  {
    var w := Create(NOTHING, REST);
    OrderEntryNumbered(w, setup.accounts);
    OrderEntryMarginNumbered(CreateOrderEntry(w, setup.accounts), setup.accounts);
  }

  // --- what is listed

  /** What an event adds to the list: the symbols of the exchange that are not discarded, in lower case, and
      the symbols of a user's request as they are. */
  ghost predicate Brings(e: Event, x: string) {
    || (e.Exchange? && exists l :: l in e.listings && !l.discard && Lower(l.symbol) == x)
    || (e.Request? && x in e.symbols)
  }

  lemma {:induction false} NormalisedHas(listings: seq<Listing>, x: string)
    ensures x in Normalised(listings) <==> exists l :: l in listings && !l.discard && Lower(l.symbol) == x
  {
    if listings != [] {
      var front, last := listings[..|listings| - 1], listings[|listings| - 1];
      NormalisedHas(front, x);
      assert listings == front + [last];
    }
  }

  lemma StepLists(setup: Setup, w: World, e: Event, x: string)
    requires Safe(setup, w) && Enabled(w, e)
    ensures x in Step(setup, w, e).items <==> x in w.items || Brings(e, x)
    ensures w.items <= Step(setup, w, e).items
  {
    if e.Exchange? || e.Request? {
      var list := if e.Exchange? then Normalised(e.listings) else e.symbols;
      var (added, known) := Added(w.known, list);
      if e.Exchange? {
        NormalisedHas(e.listings, x);
      }
      AddedFrom(w.known, list);
      AddedIsNew(w.known, list);
      UpdatedItems(setup, w.(known := known), added);
      hide Lower, SymbolsUpdate, Added, Normalised, FeedSafe, Numbered;
    }
  }

  lemma {:induction false} RunLists(setup: Setup, w: World, events: seq<Event>, x: string)
    requires Safe(setup, w) && Feasible(setup, w, events)
    ensures x in Run(setup, w, events).items <==> x in w.items || exists e :: e in events && Brings(e, x)
    ensures w.items <= Run(setup, w, events).items
    decreases |events|
  {
    hide Safe, Step, Enabled, Brings;
    if events != [] {
      StepSafe(setup, w, events[0]);
      StepLists(setup, w, events[0], x);
      RunLists(setup, Step(setup, w, events[0]), events[1..], x);
      assert events == [events[0]] + events[1..];
    }
  }

  /** In every state of every run a symbol is listed if and only if the exchange has listed it, in whatever
      case, without its being discarded, or a user has asked for it; and it stays where it is in the list. */
  lemma ListedExactly(setup: Setup, events: seq<Event>, more: seq<Event>, x: string)
    requires Feasible(setup, Initial(setup), events) && Feasible(setup, Run(setup, Initial(setup), events), more)
    ensures var w := Run(setup, Initial(setup), events);
            && (x in w.items <==> exists e :: e in events && Brings(e, x))
            && w.items <= Run(setup, w, more).items
  {
    InitiallySafe(setup);
    InitiallyEmpty(setup);
    hide Brings, Safe, Run, Feasible;
    RunSafe(setup, Initial(setup), events);
    RunLists(setup, Initial(setup), events, x);
    RunLists(setup, Run(setup, Initial(setup), events), more, x);
  }

  /** A user who asks for a symbol in two cases gets it twice. */
  lemma TwoCases(setup: Setup, channel: string)
    ensures var events := [Request(["btc", "BTC"])];
            && Feasible(setup, Initial(setup), events)
            && Run(setup, Initial(setup), events).items == ["btc", "BTC"]
            && !NoneShared(Run(setup, Initial(setup), events).items, channel)
  {
    var list := ["btc", "BTC"];
    InitiallySafe(setup);
    InitiallyEmpty(setup);
    assert Added({}, list) == (list, {"btc", "BTC"}) by {
      TwoAdded("btc", "BTC");
    }
    UpdatedItems(setup, Initial(setup).(known := {"btc", "BTC"}), list);
    assert Lower("btc") == Lower("BTC") by {
      assert forall i :: 0 <= i < 3 ==> Lower("btc")[i] == Lower("BTC")[i];
    }
    SharedStream("btc", "BTC", channel);
    hide Lower, SymbolsUpdate, Added, MarketStreamParser.ParseStream;
    assert [Request(list)][1..] == [];
    var w := Initial(setup);
    assert Step(setup, w, Request(list)) == SymbolsUpdate(setup, w.(known := {"btc", "BTC"}), list);
    assert Run(setup, w, [Request(list)]) == Step(setup, w, Request(list));
    assert [] + list == list;
    var items := Run(setup, w, [Request(list)]).items;
    assert items[0] == "btc" && items[1] == "BTC";
  }

  lemma TwoAdded(a: string, b: string)
    requires a != b
    ensures Added({}, [a, b]) == ([a, b], {a, b})
  {
    var none: seq<string>, known: set<string> := [], {};
    AddedAppend(known, none, a);
    AddedAppend(known, [a], b);
    assert none + [a] == [a] && [a] + [b] == [a, b] && known + {a} == {a} && {a} + {b} == {a, b};
  }

  lemma AddedAppend(known: set<string>, list: seq<string>, x: string)
    ensures var (added, all) := Added(known, list);
            Added(known, list + [x]) == if x in all then (added, all) else (added + [x], all + {x})
  {
    assert (list + [x])[..|list|] == list;
  }
}
