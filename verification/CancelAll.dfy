/** Cancelling all orders over REST. A portfolio account sends one request per symbol, a margin account
    one for its isolated and one for its cross positions. */
module CancelAll {
  import opened Wrappers
  import opened Accounts
  import opened Enumeration
  import opened Fields
  import opened Encoder
  import opened EncoderLaws
  import opened EncoderMeaning
  import opened WebSocket

  datatype Setting = Setting(margin: bool, recvWindow: int)

  datatype Delete = Delete(symbol: string, mode: MarginMode, query: string)

  /** `acks` are the symbols of the FORWARDED acknowledgements. */
  datatype Desk = Desk(ready: bool, openOrdersSymbols: set<string>, sent: seq<Delete>, acks: seq<string>)

  datatype Event =
    | Link(ready: bool)
    | NewOrder(symbol: string, templateKnown: bool)
    | OpenOrders(success: bool, orders: seq<OpenOrder>)
    | CancelAllOrders(filter: string, now: int)

  const NEW_DESK := Desk(false, {}, [], [])

  function Modes(margin: bool): seq<MarginMode> {
    if margin then [ISOLATED, CROSS] else [PORTFOLIO]
  }

  function DeleteOf(c: Setting, symbol: string, mode: MarginMode, now: int): Delete {
    Delete(symbol, mode, Query(FieldsOf(CancelAllUrl(symbol, mode, c.recvWindow, now))))
  }

  function Deletes(c: Setting, symbol: string, modes: seq<MarginMode>, now: int): (r: seq<Delete>)
    ensures |r| == |modes| && forall i :: 0 <= i < |modes| ==> r[i] == DeleteOf(c, symbol, modes[i], now)
  {
    seq(|modes|, i requires 0 <= i < |modes| => DeleteOf(c, symbol, modes[i], now))
  }

  function Cancel(c: Setting, d: Desk, order: seq<string>, now: int): Desk {
    if order == [] then d
    else
      var symbol := order[|order| - 1];
      var d' := Cancel(c, d, order[..|order| - 1], now);
      d'.(sent := d'.sent + Deletes(c, symbol, Modes(c.margin), now), acks := d'.acks + [symbol])
  }

  ghost predicate Acts(c: Setting, d: Desk, o: Event, e: Desk, verdict: Verdict) {
    match o
    case Link(ready) => e == d.(ready := ready) && verdict == Done
    case NewOrder(symbol, templateKnown) =>
      if !d.ready then e == d && verdict == NotReady
      else
        && e == d.(openOrdersSymbols := d.openOrdersSymbols + {symbol})
        && verdict == if templateKnown then Done else Rejected
    case OpenOrders(success, orders) =>
      && verdict == Done
      && e == if success then d.(openOrdersSymbols := d.openOrdersSymbols + WebSocket.Named(orders)) else d
    case CancelAllOrders(filter, now) =>
      if !d.ready then e == d && verdict == NotReady
      else
        && verdict == Done
        && exists order :: Enumerates(order, Matching(d.openOrdersSymbols, filter)) && e == Cancel(c, d, order, now)
  }

  // --- the stream

  class OrderEntry {
    const setting: Setting
    const buffer: Buffer
    var ready: bool
    var openOrdersSymbols: set<string>
    var sent: seq<Delete>
    var acks: seq<string>

    function View(): Desk
      reads this
    {
      Desk(ready, openOrdersSymbols, sent, acks)
    }

    constructor (setting: Setting)
      ensures this.setting == setting && fresh(buffer) && View() == NEW_DESK
    {
      this.setting := setting;
      buffer := new Buffer();
      ready, openOrdersSymbols, sent, acks := false, {}, [], [];
    }

    method OnLink(ready: bool)
      modifies this`ready
      ensures Acts(setting, old(View()), Link(ready), View(), Done)
    {
      this.ready := ready;
    }

    /** What a new order means for a later cancel-all. */
    method CreateOrder(symbol: string, templateKnown: bool) returns (verdict: Verdict)
      modifies this`openOrdersSymbols
      ensures Acts(setting, old(View()), NewOrder(symbol, templateKnown), View(), verdict)
    {
      if !ready {
        return NotReady;
      }
      openOrdersSymbols := openOrdersSymbols + {symbol};
      return if templateKnown then Done else Rejected;
    }

    method OnOpenOrders(success: bool, orders: seq<OpenOrder>)
      modifies this`openOrdersSymbols
      ensures Acts(setting, old(View()), OpenOrders(success, orders), View(), Done)
    {
      if success {
        for i := 0 to |orders|
          invariant openOrdersSymbols == old(openOrdersSymbols) + WebSocket.Named(orders[..i])
        {
          assert orders[..i + 1] == orders[..i] + [orders[i]];
          if orders[i].clientOrderId == "" {
            continue;
          }
          openOrdersSymbols := openOrdersSymbols + {orders[i].symbol};
        }
        assert orders[..|orders|] == orders;
      }
    }

    method SendDelete(symbol: string, mode: MarginMode, now: int)
      modifies this`sent, buffer
      ensures sent == old(sent) + [DeleteOf(setting, symbol, mode, now)]
    {
      hide Query, Listed, ContentOf;
      EncodeCancelAllUrl(buffer, symbol, mode, setting.recvWindow, now);
      sent := sent + [Delete(symbol, mode, buffer.text)];
    }

    method CancelSymbol(symbol: string, now: int)
      modifies this`sent, this`acks, buffer
      ensures sent == old(sent) + Deletes(setting, symbol, Modes(setting.margin), now)
      ensures acks == old(acks) + [symbol]
    {
      hide DeleteOf;
      if setting.margin {
        SendDelete(symbol, ISOLATED, now);
        SendDelete(symbol, CROSS, now);
      } else {
        SendDelete(symbol, PORTFOLIO, now);
      }
      acks := acks + [symbol];
    }

    method CancelAllOpenOrders(filter: string, now: int) returns (verdict: Verdict)
      modifies this`sent, this`acks, buffer
      ensures Acts(setting, old(View()), CancelAllOrders(filter, now), View(), verdict)
    {
      hide Deletes, Modes;
      if !ready {
        return NotReady;
      }
      var rest := openOrdersSymbols;
      ghost var order: seq<string> := [];
      ghost var done: set<string> := {};
      while rest != {}
        invariant done !! rest && done + rest == openOrdersSymbols
        invariant Enumerates(order, Matching(done, filter))
        invariant View() == Cancel(setting, old(View()), order, now)
      {
        var symbol :| symbol in rest;
        EnumerateNext(order, done, filter, symbol);
        rest, done := rest - {symbol}, done + {symbol};
        if filter != "" && symbol != filter {
          continue;
        }
        CancelSymbol(symbol, now);
        assert (order + [symbol])[..|order|] == order;
        order := order + [symbol];
      }
      assert done == openOrdersSymbols;
      return Done;
    }
  }

  // --- over a run

  datatype History = History(setting: Setting, desks: seq<Desk>, events: seq<Event>, verdicts: seq<Verdict>)

  ghost predicate Happens(h: History) {
    && |h.desks| == |h.events| + 1 == |h.verdicts| + 1
    && h.desks[0] == NEW_DESK
    && forall i :: 0 <= i < |h.events| ==> Acts(h.setting, h.desks[i], h.events[i], h.desks[i + 1], h.verdicts[i])
  }

  /** The symbols of all orders placed while ready, and of all orders downloaded, so far. */
  ghost predicate Seen(h: History, k: nat, symbol: string)
    requires k <= |h.events| < |h.desks|
  {
    exists n :: 0 <= n < k && (
        || (h.events[n].NewOrder? && h.desks[n].ready && h.events[n].symbol == symbol)
        || (h.events[n].OpenOrders? && h.events[n].success
            && exists o :: o in h.events[n].orders && o.clientOrderId != "" && o.symbol == symbol))
  }

  lemma {:induction false} CancelKeeps(c: Setting, d: Desk, order: seq<string>, now: int)
    ensures var e := Cancel(c, d, order, now);
            e.(sent := d.sent, acks := d.acks) == d && d.sent <= e.sent && d.acks <= e.acks
  {
    hide Deletes;
    if order != [] {
      CancelKeeps(c, d, order[..|order| - 1], now);
    }
  }

  lemma ActsOnSymbols(c: Setting, d: Desk, o: Event, e: Desk, verdict: Verdict)
    requires Acts(c, d, o, e, verdict)
    ensures e.openOrdersSymbols == d.openOrdersSymbols
              + (if o.NewOrder? && d.ready then {o.symbol} else {})
              + (if o.OpenOrders? && o.success then WebSocket.Named(o.orders) else {})
  {
    hide Cancel;
    if o.CancelAllOrders? && d.ready {
      var order :| Enumerates(order, Matching(d.openOrdersSymbols, o.filter)) && e == Cancel(c, d, order, o.now);
      CancelKeeps(c, d, order, o.now);
    }
  }

  lemma {:induction false} SymbolsAreSeen(h: History, k: nat, symbol: string)
    requires Happens(h) && k < |h.desks|
    ensures symbol in h.desks[k].openOrdersSymbols <==> Seen(h, k, symbol)
  {
    hide Acts;
    if k > 0 {
      var d, o, e, verdict := h.desks[k - 1], h.events[k - 1], h.desks[k], h.verdicts[k - 1];
      SymbolsAreSeen(h, k - 1, symbol);
      ActsOnSymbols(h.setting, d, o, e, verdict);
      var here := || (o.NewOrder? && d.ready && o.symbol == symbol)
                  || (o.OpenOrders? && o.success && exists x :: x in o.orders && x.clientOrderId != "" && x.symbol == symbol);
      assert Seen(h, k, symbol) <==> Seen(h, k - 1, symbol) || here;
    }
  }

  /** Requests of users are rejected while the stream is not ready, and a new order also if its template is
      not known. Only a cancel-all that is not rejected sends anything; all others leave the requests and the
      acknowledgements as they are, and one that is not ready leaves everything. */
  lemma Verdicts(c: Setting, d: Desk, o: Event, e: Desk, verdict: Verdict)
    requires Acts(c, d, o, e, verdict)
    ensures verdict == NotReady <==> (o.NewOrder? || o.CancelAllOrders?) && !d.ready
    ensures verdict == Rejected <==> o.NewOrder? && d.ready && !o.templateKnown
    ensures verdict == NotReady ==> e == d
    ensures !o.CancelAllOrders? ==> e.sent == d.sent && e.acks == d.acks
    ensures e.ready == if o.Link? then o.ready else d.ready
  {
    hide Cancel;
    if o.CancelAllOrders? && d.ready {
      var order :| Enumerates(order, Matching(d.openOrdersSymbols, o.filter)) && e == Cancel(c, d, order, o.now);
      CancelKeeps(c, d, order, o.now);
    }
  }

  /** In every state of every run the stream is ready if and only if its last connection status said so. */
  lemma {:induction false} ReadyIsHistory(h: History, k: nat)
    requires Happens(h) && k < |h.desks|
    ensures h.desks[k].ready <==>
            exists n :: 0 <= n < k && h.events[n] == Link(true) && forall m :: n < m < k ==> !h.events[m].Link?
  {
    if k > 0 {
      ReadyIsHistory(h, k - 1);
      Verdicts(h.setting, h.desks[k - 1], h.events[k - 1], h.desks[k], h.verdicts[k - 1]);
      hide Acts;
    }
  }

  // --- coverage

  function Pairs(sent: seq<Delete>): (r: seq<(string, MarginMode)>)
    ensures |r| == |sent| && forall i :: 0 <= i < |sent| ==> r[i] == (sent[i].symbol, sent[i].mode)
  {
    seq(|sent|, i requires 0 <= i < |sent| => (sent[i].symbol, sent[i].mode))
  }

  /** A request as it should be: it asks to cancel its symbol in its mode. */
  predicate Genuine(c: Setting, d: Delete, now: int) {
    d == DeleteOf(c, d.symbol, d.mode, now)
  }

  ghost predicate AllGenuine(c: Setting, sent: seq<Delete>, from: nat, now: int) {
    forall i :: from <= i < |sent| ==> Genuine(c, sent[i], now)
  }

  /** The pairs that are due for one symbol. */
  function Due(margin: bool, symbol: string): seq<(string, MarginMode)> {
    if margin then [(symbol, ISOLATED), (symbol, CROSS)] else [(symbol, PORTFOLIO)]
  }

  lemma DeletesDue(c: Setting, symbol: string, now: int)
    ensures Pairs(Deletes(c, symbol, Modes(c.margin), now)) == Due(c.margin, symbol)
    ensures forall d :: d in Deletes(c, symbol, Modes(c.margin), now) ==> Genuine(c, d, now)
  {
    hide Query, FieldsOf;
  }

  lemma DueCount(margin: bool, symbol: string, x: string, mode: MarginMode)
    ensures multiset(Due(margin, symbol))[(x, mode)] == if x == symbol && mode in Modes(margin) then 1 else 0
  {
    if margin {
      assert Due(margin, symbol) == [(symbol, ISOLATED)] + [(symbol, CROSS)];
    }
  }

  lemma {:induction false} CancelAcks(c: Setting, d: Desk, order: seq<string>, now: int)
    ensures var e := Cancel(c, d, order, now);
            && d.sent <= e.sent && d.acks <= e.acks && e.acks[|d.acks|..] == order
            && AllGenuine(c, e.sent, |d.sent|, now)
  {
    hide Genuine, Deletes, AllGenuine, Modes;
    CancelKeeps(c, d, order, now);
    if order == [] {
      assert AllGenuine(c, d.sent, |d.sent|, now) by {
        NoneYet(c, d.sent, now);
      }
    } else {
      var front, last := order[..|order| - 1], order[|order| - 1];
      CancelKeeps(c, d, front, now);
      CancelAcks(c, d, front, now);
      DeletesDue(c, last, now);
      assert order == front + [last];
      var f, e := Cancel(c, d, front, now), Cancel(c, d, order, now);
      assert e.acks[|d.acks|..] == f.acks[|d.acks|..] + [last];
      GenuineAppend(c, f.sent, |d.sent|, Deletes(c, last, Modes(c.margin), now), now);
    }
  }

  lemma NoneYet(c: Setting, sent: seq<Delete>, now: int)
    ensures AllGenuine(c, sent, |sent|, now)
  {
  }

  lemma GenuineAppend(c: Setting, sent: seq<Delete>, from: nat, more: seq<Delete>, now: int)
    requires AllGenuine(c, sent, from, now) && forall d :: d in more ==> Genuine(c, d, now)
    ensures AllGenuine(c, sent + more, from, now)
  {
    hide Genuine;
    forall i | from <= i < |sent + more|
      ensures Genuine(c, (sent + more)[i], now)
    {
      if i >= |sent| {
        assert (sent + more)[i] in more;
      }
    }
  }

  function AllDue(margin: bool, order: seq<string>): seq<(string, MarginMode)> {
    if order == [] then [] else AllDue(margin, order[..|order| - 1]) + Due(margin, order[|order| - 1])
  }

  lemma {:induction false} CancelPairs(c: Setting, d: Desk, order: seq<string>, now: int)
    ensures d.sent <= Cancel(c, d, order, now).sent
    ensures Pairs(Cancel(c, d, order, now).sent[|d.sent|..]) == AllDue(c.margin, order)
  {
    hide Deletes, Due, Modes, Pairs, DeleteOf;
    CancelKeeps(c, d, order, now);
    if order == [] {
      assert Pairs([]) == [];
    } else {
      var front, last := order[..|order| - 1], order[|order| - 1];
      CancelPairs(c, d, front, now);
      DeletesDue(c, last, now);
      PairsOfTail(Cancel(c, d, front, now).sent, Deletes(c, last, Modes(c.margin), now), |d.sent|);
    }
  }

  lemma PairsOfTail(a: seq<Delete>, b: seq<Delete>, n: nat)
    requires n <= |a|
    ensures Pairs((a + b)[n..]) == Pairs(a[n..]) + Pairs(b)
  {
    assert (a + b)[n..] == a[n..] + b;
    PairsConcat(a[n..], b);
  }

  lemma PairsConcat(a: seq<Delete>, b: seq<Delete>)
    ensures Pairs(a + b) == Pairs(a) + Pairs(b)
  {
  }

  /** For a list of different symbols, each of them is due with each of the modes, once. */
  lemma {:induction false} AllDueCount(margin: bool, order: seq<string>, x: string, mode: MarginMode)
    requires forall i, j :: 0 <= i < j < |order| ==> order[i] != order[j]
    ensures multiset(AllDue(margin, order))[(x, mode)] == if x in order && mode in Modes(margin) then 1 else 0
  {
    hide Due, Modes;
    if order != [] {
      var front, last := order[..|order| - 1], order[|order| - 1];
      assert order == front + [last];
      AllDueCount(margin, front, x, mode);
      DueCount(margin, last, x, mode);
    }
  }

  lemma ModesAre(margin: bool)
    ensures forall mode :: mode in Modes(margin) <==> mode in (if margin then {ISOLATED, CROSS} else {PORTFOLIO})
  {
  }

  /** A cancel-all while ready sends, for each symbol seen that matches its filter and for no other,
      exactly one request for a portfolio account, or one for isolated and one for cross positions for a
      margin account, and exactly one FORWARDED acknowledgement. */
  lemma CancelAllCovers(h: History, k: nat, symbol: string, mode: MarginMode)
    requires Happens(h) && k < |h.events|
    requires h.events[k].CancelAllOrders? && h.desks[k].ready
    ensures h.verdicts[k] == Done
    ensures h.desks[k].sent <= h.desks[k + 1].sent && h.desks[k].acks <= h.desks[k + 1].acks
    ensures var matches := Seen(h, k, symbol) && (h.events[k].filter == "" || symbol == h.events[k].filter);
            && multiset(Pairs(h.desks[k + 1].sent[|h.desks[k].sent|..]))[(symbol, mode)]
               == (if matches && mode in (if h.setting.margin then {ISOLATED, CROSS} else {PORTFOLIO}) then 1 else 0)
            && multiset(h.desks[k + 1].acks[|h.desks[k].acks|..])[symbol] == (if matches then 1 else 0)
    ensures AllGenuine(h.setting, h.desks[k + 1].sent, |h.desks[k].sent|, h.events[k].now)
  {
    hide Cancel, Genuine, Modes, Seen;
    var d, e, filter, now := h.desks[k], h.desks[k + 1], h.events[k].filter, h.events[k].now;
    var matching := Matching(d.openOrdersSymbols, filter);
    assert Acts(h.setting, d, h.events[k], e, h.verdicts[k]);
    var order :| Enumerates(order, matching) && e == Cancel(h.setting, d, order, now);
    CancelAcks(h.setting, d, order, now);
    CancelPairs(h.setting, d, order, now);
    AllDueCount(h.setting.margin, order, symbol, mode);
    AsMultiset(order, matching);
    SymbolsAreSeen(h, k, symbol);
    assert mode in Modes(h.setting.margin) <==> mode in (if h.setting.margin then {ISOLATED, CROSS} else {PORTFOLIO}) by {
      ModesAre(h.setting.margin);
    }
  }

  /** What the exchange reads from one of these requests: the symbol, which positions are meant, and when. */
  lemma DeleteReceived(c: Setting, symbol: string, mode: MarginMode, now: int)
    requires '&' !in symbol
    ensures QueryReads(DeleteOf(c, symbol, mode, now).query, [
              ("isIsolated", if mode == ISOLATED then Some("TRUE") else if mode == CROSS then Some("FALSE") else None),
              ("symbol", Some(symbol)),
              ("recvWindow", Some(Whole(c.recvWindow))),
              ("timestamp", Some(Whole(now)))])
  {
    var r := CancelAllUrl(symbol, mode, c.recvWindow, now);
    hide Query, Whole, QueryReads, Name;
    ListedAt(ContentOf(r), 1);
    hide Listed, ContentOf, Optional;
    assert Prints(DeleteOf(c, symbol, mode, now).query, r);
    hide Prints, DeleteOf;
    CancelAllUrlReads(DeleteOf(c, symbol, mode, now).query, symbol, mode, c.recvWindow, now);
  }
}
