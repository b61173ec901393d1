/** The controller: it numbers and creates the streams, keeps the list of subscribed symbols free of
    duplicates, and spreads the symbols over market-data streams. */
module Controller {
  import opened Accounts
  import opened Words
  import opened Ascii
  import opened Symbols
  import opened MarketData

  datatype Account = Account(name: string, mode: MarginMode)

  datatype Setup = Setup(accounts: seq<Account>, dropMargin: bool, settings: Settings, max: Positive)

  datatype Kind =
    | REST
    | WEB_SOCKET(account: string)
    | ORDER_ENTRY_PORTFOLIO(account: string)
    | ORDER_ENTRY_MARGIN(account: string)
    | DROP_COPY(account: string)
    | DROP_COPY_MARGIN(account: string)
    | MARKET_DATA(priority: Priority, index: nat)

  /** A stream that has been created, with its id. */
  datatype Created = Created(id: uint16, kind: Kind)

  datatype World = World(
    items: seq<string>,
    known: set<string>,
    primary: seq<Feed>,
    secondary: seq<Feed>,
    dropCopies: set<string>,
    marginDropCopies: set<string>,
    streamId: uint16,
    created: seq<Created>)

  // --- numbering

  function Create(w: World, kind: Kind): World {
    var id := (w.streamId + 1) % TWO_16;
    w.(streamId := id, created := w.created + [Created(id, kind)])
  }

  function OrderEntryKind(a: Account): Kind {
    if a.mode == PORTFOLIO then ORDER_ENTRY_PORTFOLIO(a.name) else WEB_SOCKET(a.name)
  }

  function CreateOrderEntry(w: World, accounts: seq<Account>): World {
    if accounts == [] then w
    else Create(CreateOrderEntry(w, accounts[..|accounts| - 1]), OrderEntryKind(accounts[|accounts| - 1]))
  }

  function CreateOrderEntryMargin(w: World, accounts: seq<Account>): World {
    if accounts == [] then w
    else
      var w' := CreateOrderEntryMargin(w, accounts[..|accounts| - 1]);
      var a := accounts[|accounts| - 1];
      if a.mode == PORTFOLIO then w' else Create(w', ORDER_ENTRY_MARGIN(a.name))
  }

  const NOTHING := World([], {}, [], [], {}, {}, 0, [])

  function Initial(setup: Setup): World {
    var w := CreateOrderEntry(Create(NOTHING, REST), setup.accounts);
    if setup.dropMargin then w else CreateOrderEntryMargin(w, setup.accounts)
  }

  /** A drop copy is created on the first listen key of an account. A mode that is not set ends the
      process; the account is expected to exist. */
  function ListenKeyUpdate(w: World, account: string, mode: MarginMode): World {
    match mode
    case UNDEFINED => w
    case PORTFOLIO =>
      if account in w.dropCopies then w
      else Create(w, DROP_COPY(account)).(dropCopies := w.dropCopies + {account})
    case _ =>
      if account in w.marginDropCopies then w
      else Create(w, DROP_COPY_MARGIN(account)).(marginDropCopies := w.marginDropCopies + {account})
  }

  // --- symbols

  /** Those elements of a list that are not known yet, each of them once, and all that is known then. */
  function Added(known: set<string>, list: seq<string>): (seq<string>, set<string>) {
    if list == [] then ([], known)
    else
      var (added, all) := Added(known, list[..|list| - 1]);
      var item := list[|list| - 1];
      if item in all then (added, all) else (added + [item], all + {item})
  }

  datatype Listing = Listing(symbol: string, discard: bool)

  /** The exchange's symbols in lower case, without the discarded ones. */
  function Normalised(listings: seq<Listing>): seq<string> {
    if listings == [] then []
    else
      var l := listings[|listings| - 1];
      Normalised(listings[..|listings| - 1]) + if l.discard then [] else [Lower(l.symbol)]
  }

  function EnsurePrimary(w: World, size: nat): World
    decreases size - |w.primary|
  {
    if |w.primary| < size then
      var w' := Create(w, MARKET_DATA(PRIMARY, |w.primary|));
      EnsurePrimary(w'.(primary := w.primary + [NewFeed(w'.streamId, |w.primary|, PRIMARY)]), size)
    else w
  }

  function EnsureSecondary(w: World, size: nat): World
    decreases size - |w.secondary|
  {
    if |w.secondary| < size then
      var w' := Create(w, MARKET_DATA(SECONDARY, |w.secondary|));
      EnsureSecondary(w'.(secondary := w.secondary + [NewFeed(w'.streamId, |w.secondary|, SECONDARY)]), size)
    else w
  }

  function EnsureSlices(setup: Setup, w: World, size: nat): World {
    var w' := EnsurePrimary(w, size);
    if setup.settings.enableSecondary then EnsureSecondary(w', size) else w'
  }

  function SubscribeAll(setup: Setup, items: seq<string>, feeds: seq<Feed>, startFrom: nat): (r: seq<Feed>)
    ensures |r| == |feeds|
    ensures forall i :: 0 <= i < |feeds| ==> r[i] == SubscribeFrom(setup.settings, items, setup.max, feeds[i], startFrom)
  {
    seq(|feeds|, i requires 0 <= i < |feeds| => SubscribeFrom(setup.settings, items, setup.max, feeds[i], startFrom))
  }

  function SymbolsUpdate(setup: Setup, w: World, added: seq<string>): World {
    var items := w.items + added;
    var w' := EnsureSlices(setup, w.(items := items), SliceCount(|items|, setup.max));
    w'.(primary := SubscribeAll(setup, items, w'.primary, |w.items|), secondary := SubscribeAll(setup, items, w'.secondary, |w.items|))
  }

  function SubscribeRequest(setup: Setup, w: World, symbols: seq<string>): World {
    var (added, known) := Added(w.known, symbols);
    SymbolsUpdate(setup, w.(known := known), added)
  }

  function ExchangeInfo(setup: Setup, w: World, listings: seq<Listing>): World {
    var (added, known) := Added(w.known, Normalised(listings));
    if added == [] then w.(known := known) else SymbolsUpdate(setup, w.(known := known), added)
  }

  // --- the controller

  class Gateway {
    const setup: Setup
    const symbols: SymbolList
    var allSymbols: set<string>
    var marketData1: seq<Stream>
    var marketData2: seq<Stream>
    var dropCopy: set<string>
    var dropCopyMargin: set<string>
    var streamId: uint16
    ghost var created: seq<Created>

    static ghost function Views(streams: seq<Stream>): (feeds: seq<Feed>)
      reads streams
      ensures |feeds| == |streams| && forall i :: 0 <= i < |streams| ==> feeds[i] == streams[i].View()
    {
      seq(|streams|, i requires 0 <= i < |streams| reads streams => streams[i].View())
    }

    ghost predicate Valid()
      reads this, marketData1, marketData2
    {
      && symbols.max == setup.max
      && (forall s :: s in marketData1 ==> s.Valid() && s.settings == setup.settings && s.symbols == symbols)
      && (forall s :: s in marketData2 ==> s.Valid() && s.settings == setup.settings && s.symbols == symbols)
      && (forall i, j :: 0 <= i < j < |marketData1| ==> marketData1[i] != marketData1[j])
      && (forall i, j :: 0 <= i < j < |marketData2| ==> marketData2[i] != marketData2[j])
      && (forall i, j :: 0 <= i < |marketData1| && 0 <= j < |marketData2| ==> marketData1[i] != marketData2[j])
    }

    ghost function View(): World
      reads this, symbols, marketData1, marketData2
    {
      World(symbols.items, allSymbols, Views(marketData1), Views(marketData2), dropCopy, dropCopyMargin, streamId, created)
    }

    constructor (setup: Setup)
      ensures Valid() && this.setup == setup && View() == Initial(setup)
      ensures fresh(symbols)
    {
      this.setup := setup;
      symbols := new SymbolList(setup.max);
      allSymbols, marketData1, marketData2, dropCopy, dropCopyMargin := {}, [], [], {}, {};
      streamId := 0;
      created := [];
      new;
      assert View() == NOTHING;
      NextId(REST);
      NumberOrderEntry();
      if !setup.dropMargin {
        NumberOrderEntryMargin();
      }
    }

    method NumberOrderEntry()
      modifies this`streamId, this`created
      ensures View() == CreateOrderEntry(old(View()), setup.accounts)
    {
      for i := 0 to |setup.accounts|
        invariant View() == CreateOrderEntry(old(View()), setup.accounts[..i])
      {
        assert setup.accounts[..i + 1][..i] == setup.accounts[..i];
        NextId(OrderEntryKind(setup.accounts[i]));
      }
      assert setup.accounts[..|setup.accounts|] == setup.accounts;
    }

    method NumberOrderEntryMargin()
      modifies this`streamId, this`created
      ensures View() == CreateOrderEntryMargin(old(View()), setup.accounts)
    {
      for i := 0 to |setup.accounts|
        invariant View() == CreateOrderEntryMargin(old(View()), setup.accounts[..i])
      {
        assert setup.accounts[..i + 1][..i] == setup.accounts[..i];
        if setup.accounts[i].mode != PORTFOLIO {
          NextId(ORDER_ENTRY_MARGIN(setup.accounts[i].name));
        }
      }
      assert setup.accounts[..|setup.accounts|] == setup.accounts;
    }

    /** Draws the id for a new stream. */
    method NextId(kind: Kind)
      modifies this`streamId, this`created
      ensures View() == Create(old(View()), kind)
    {
      streamId := (streamId + 1) % TWO_16;
      created := created + [Created(streamId, kind)];
    }

    /** The process does not live on after an update without a mode. */
    method OnListenKeyUpdate(account: string, mode: MarginMode) returns (alive: bool)
      modifies this`streamId, this`created, this`dropCopy, this`dropCopyMargin
      ensures alive == (mode != UNDEFINED)
      ensures View() == ListenKeyUpdate(old(View()), account, mode)
    {
      if mode == UNDEFINED {
        return false;
      }
      if mode == PORTFOLIO {
        if account !in dropCopy {
          NextId(DROP_COPY(account));
          dropCopy := dropCopy + {account};
        }
      } else {
        if account !in dropCopyMargin {
          NextId(DROP_COPY_MARGIN(account));
          dropCopyMargin := dropCopyMargin + {account};
        }
      }
      return true;
    }

    method EnsureSymbolSlices(size: nat)
      requires Valid()
      modifies this`streamId, this`created, this`marketData1, this`marketData2
      ensures Valid() && View() == EnsureSlices(setup, old(View()), size)
      ensures old(marketData1) <= marketData1 && fresh(marketData1[|old(marketData1)|..])
      ensures old(marketData2) <= marketData2 && fresh(marketData2[|old(marketData2)|..])
    {
      EnsurePrimarySlices(size);
      if !setup.settings.enableSecondary {
        return;
      }
      EnsureSecondarySlices(size);
    }

    method EnsurePrimarySlices(size: nat)
      requires Valid()
      modifies this`streamId, this`created, this`marketData1
      ensures Valid() && View() == EnsurePrimary(old(View()), size)
      ensures old(marketData1) <= marketData1 && fresh(marketData1[|old(marketData1)|..])
    {
      while |marketData1| < size
        invariant Valid()
        invariant old(marketData1) <= marketData1 && fresh(marketData1[|old(marketData1)|..])
        invariant EnsurePrimary(View(), size) == EnsurePrimary(old(View()), size)
      {
        AddPrimary();
      }
    }

    method AddPrimary()
      requires Valid()
      modifies this`streamId, this`created, this`marketData1
      ensures Valid() && |marketData1| == |old(marketData1)| + 1
      ensures old(marketData1) <= marketData1 && fresh(marketData1[|old(marketData1)|])
      ensures var w := old(View());
              var w' := Create(w, MARKET_DATA(PRIMARY, |w.primary|));
              View() == w'.(primary := w.primary + [NewFeed(w'.streamId, |w.primary|, PRIMARY)])
    {
      hide Stream.Valid, Stream.View, Texts, NewFeed;
      ghost var before := Views(marketData1);
      NextId(MARKET_DATA(PRIMARY, |marketData1|));
      var stream := new Stream(setup.settings, symbols, streamId, PRIMARY, |marketData1|);
      marketData1 := marketData1 + [stream];
      assert Views(marketData1) == before + [NewFeed(streamId, |before|, PRIMARY)];
      assert Views(marketData2) == old(Views(marketData2));
    }

    method EnsureSecondarySlices(size: nat)
      requires Valid()
      modifies this`streamId, this`created, this`marketData2
      ensures Valid() && View() == EnsureSecondary(old(View()), size)
      ensures old(marketData2) <= marketData2 && fresh(marketData2[|old(marketData2)|..])
    {
      while |marketData2| < size
        invariant Valid()
        invariant old(marketData2) <= marketData2 && fresh(marketData2[|old(marketData2)|..])
        invariant EnsureSecondary(View(), size) == EnsureSecondary(old(View()), size)
      {
        AddSecondary();
      }
    }

    method AddSecondary()
      requires Valid()
      modifies this`streamId, this`created, this`marketData2
      ensures Valid() && |marketData2| == |old(marketData2)| + 1
      ensures old(marketData2) <= marketData2 && fresh(marketData2[|old(marketData2)|])
      ensures var w := old(View());
              var w' := Create(w, MARKET_DATA(SECONDARY, |w.secondary|));
              View() == w'.(secondary := w.secondary + [NewFeed(w'.streamId, |w.secondary|, SECONDARY)])
    {
      hide Stream.Valid, Stream.View, Texts, NewFeed;
      ghost var before := Views(marketData2);
      NextId(MARKET_DATA(SECONDARY, |marketData2|));
      var stream := new Stream(setup.settings, symbols, streamId, SECONDARY, |marketData2|);
      marketData2 := marketData2 + [stream];
      assert Views(marketData2) == before + [NewFeed(streamId, |before|, SECONDARY)];
      assert Views(marketData1) == old(Views(marketData1));
    }

    method OnSymbolsUpdate(added: seq<string>)
      requires Valid()
      modifies this`streamId, this`created, this`marketData1, this`marketData2, symbols, marketData1, marketData2
      ensures Valid() && View() == SymbolsUpdate(setup, old(View()), added)
    {
      hide SliceCount, EnsureSlices, EnsurePrimary, EnsureSecondary, SubscribeFrom, Stream.Valid, Texts;
      var size, startFrom := symbols.Append(added);
      EnsureSymbolSlices(size);
      OldOrNew(old(marketData1), marketData1);
      OldOrNew(old(marketData2), marketData2);
      assert forall s :: s in marketData1 ==> s in old(marketData1) || fresh(s);
      assert forall s :: s in marketData2 ==> s in old(marketData2) || fresh(s);
      SubscribePrimary(startFrom);
      SubscribeSecondary(startFrom);
    }

    lemma OldOrNew(before: seq<Stream>, after: seq<Stream>)
      requires before <= after
      ensures forall s :: s in after ==> s in before || s in after[|before|..]
    {
      assert after == before + after[|before|..];
    }

    method SubscribePrimary(startFrom: nat)
      requires Valid()
      modifies marketData1
      ensures Valid() && View() == old(View()).(primary := SubscribeAll(setup, symbols.items, old(View()).primary, startFrom))
    {
      hide SubscribeFrom, Stream.Valid, Texts;
      ghost var feeds := Views(marketData1);
      for i := 0 to |marketData1|
        invariant Valid() && Views(marketData2) == old(Views(marketData2))
        invariant forall k :: 0 <= k < i ==> marketData1[k].View() == SubscribeFrom(setup.settings, symbols.items, setup.max, feeds[k], startFrom)
        invariant forall k :: i <= k < |marketData1| ==> marketData1[k].View() == feeds[k]
      {
        marketData1[i].SubscribeNew(startFrom);
      }
    }

    method SubscribeSecondary(startFrom: nat)
      requires Valid()
      modifies marketData2
      ensures Valid() && View() == old(View()).(secondary := SubscribeAll(setup, symbols.items, old(View()).secondary, startFrom))
    {
      hide SubscribeFrom, Stream.Valid, Texts;
      ghost var feeds := Views(marketData2);
      for i := 0 to |marketData2|
        invariant Valid() && Views(marketData1) == old(Views(marketData1))
        invariant forall k :: 0 <= k < i ==> marketData2[k].View() == SubscribeFrom(setup.settings, symbols.items, setup.max, feeds[k], startFrom)
        invariant forall k :: i <= k < |marketData2| ==> marketData2[k].View() == feeds[k]
      {
        marketData2[i].SubscribeNew(startFrom);
      }
    }

    method OnSubscribe(list: seq<string>)
      requires Valid()
      modifies this`streamId, this`created, this`marketData1, this`marketData2, this`allSymbols, symbols, marketData1, marketData2
      ensures Valid() && View() == SubscribeRequest(setup, old(View()), list)
    {
      var added := Remember(list);
      OnSymbolsUpdate(added);
    }

    /** Adds a list to the set of known symbols; yields those that were new. */
    method Remember(list: seq<string>) returns (added: seq<string>)
      requires Valid()
      modifies this`allSymbols
      ensures Valid() && (added, allSymbols) == Added(old(allSymbols), list)
      ensures View() == old(View()).(known := allSymbols)
    {
      added := [];
      for i := 0 to |list|
        invariant (added, allSymbols) == Added(old(allSymbols), list[..i])
      {
        assert list[..i + 1][..i] == list[..i];
        if list[i] !in allSymbols {
          allSymbols := allSymbols + {list[i]};
          added := added + [list[i]];
        }
      }
      assert list[..|list|] == list;
    }

    /** Like Remember, for the listings of the exchange. */
    method RememberListings(listings: seq<Listing>) returns (added: seq<string>)
      modifies this`allSymbols
      ensures (added, allSymbols) == Added(old(allSymbols), Normalised(listings))
    {
      hide Lower;
      added := [];
      for i := 0 to |listings|
        invariant (added, allSymbols) == Added(old(allSymbols), Normalised(listings[..i]))
      {
        assert listings[..i + 1][..i] == listings[..i];
        ghost var before := Normalised(listings[..i]);
        if listings[i].discard {
          assert Normalised(listings[..i + 1]) == before;
          continue;
        }
        var symbol := Lower(listings[i].symbol);
        assert Normalised(listings[..i + 1]) == before + [symbol];
        assert (before + [symbol])[..|before|] == before;
        if symbol !in allSymbols {
          allSymbols := allSymbols + {symbol};
          added := added + [symbol];
        }
      }
      assert listings[..|listings|] == listings;
    }

    method OnExchangeInfo(listings: seq<Listing>)
      requires Valid()
      modifies this`streamId, this`created, this`marketData1, this`marketData2, this`allSymbols, symbols, marketData1, marketData2
      ensures Valid() && View() == ExchangeInfo(setup, old(View()), listings)
    {
      hide SymbolsUpdate, Stream.Valid, Texts, Lower, Added, Normalised;
      var added := RememberListings(listings);
      if added != [] {
        OnSymbolsUpdate(added);
      }
    }
  }
}
