/** The filter in front of the order books: primary and secondary streams report the same updates, and
    an update is dropped if a later one of its symbol has been seen on its channel. */
module UpdateFilter {
  datatype Channel = TOB | MBP

  /** An update as one of the streams reports it. */
  datatype Update = Update(channel: Channel, symbol: string, id: int)

  datatype Instrument = Instrument(tobLastUpdateId: int, mbpLastUpdateId: int)

  const NEW_INSTRUMENT := Instrument(0, 0)

  function LastId(i: Instrument, channel: Channel): int {
    match channel
    case TOB => i.tobLastUpdateId
    case MBP => i.mbpLastUpdateId
  }

  type Table = map<string, Instrument>

  /** A symbol is entered into the table when it is first asked for. */
  function Lookup(table: Table, symbol: string): Instrument {
    if symbol in table then table[symbol] else NEW_INSTRUMENT
  }

  function Accepts(table: Table, u: Update): bool {
    u.id >= LastId(Lookup(table, u.symbol), u.channel)
  }

  function Apply(table: Table, u: Update): Table {
    var i := Lookup(table, u.symbol);
    table[u.symbol :=
      if !Accepts(table, u) then i
      else if u.channel == TOB then i.(tobLastUpdateId := u.id)
      else i.(mbpLastUpdateId := u.id)]
  }

  class Shared {
    var instruments: Table

    constructor ()
      ensures instruments == map[]
    {
      instruments := map[];
    }

    method GetInstrument(symbol: string) returns (instrument: Instrument)
      modifies this
      ensures symbol in instruments && instruments[symbol] == instrument == Lookup(old(instruments), symbol)
      ensures instruments == old(instruments)[symbol := instrument]
    {
      if symbol !in instruments {
        instruments := instruments[symbol := NEW_INSTRUMENT];
      }
      instrument := instruments[symbol];
    }

    method TobUpdate(symbol: string, updateId: int) returns (accepted: bool)
      requires symbol in instruments
      modifies this
      ensures accepted == Accepts(old(instruments), Update(TOB, symbol, updateId))
      ensures instruments == Apply(old(instruments), Update(TOB, symbol, updateId))
    {
      var instrument := instruments[symbol];
      if updateId < instrument.tobLastUpdateId {
        return false;
      }
      instruments := instruments[symbol := instrument.(tobLastUpdateId := updateId)];
      return true;
    }

    method MbpUpdate(symbol: string, updateId: int) returns (accepted: bool)
      requires symbol in instruments
      modifies this
      ensures accepted == Accepts(old(instruments), Update(MBP, symbol, updateId))
      ensures instruments == Apply(old(instruments), Update(MBP, symbol, updateId))
    {
      var instrument := instruments[symbol];
      if updateId < instrument.mbpLastUpdateId {
        return false;
      }
      instruments := instruments[symbol := instrument.(mbpLastUpdateId := updateId)];
      return true;
    }

    method OnUpdate(u: Update) returns (accepted: bool)
      modifies this
      ensures accepted == Accepts(old(instruments), u) && instruments == Apply(old(instruments), u)
    {
      var _ := GetInstrument(u.symbol);
      if u.channel == TOB {
        accepted := TobUpdate(u.symbol, u.id);
      } else {
        accepted := MbpUpdate(u.symbol, u.id);
      }
    }
  }

  // --- over a whole history

  function Run(history: seq<Update>): Table {
    if history == [] then map[] else Apply(Run(history[..|history| - 1]), history[|history| - 1])
  }

  predicate Alike(u: Update, channel: Channel, symbol: string) {
    u.channel == channel && u.symbol == symbol
  }

  /** Zero or an id of the history, and not below any of its ids. */
  ghost predicate Greatest(m: int, history: seq<Update>, channel: Channel, symbol: string) {
    && m >= 0
    && (forall u :: u in history && Alike(u, channel, symbol) ==> u.id <= m)
    && (m == 0 || exists u :: u in history && Alike(u, channel, symbol) && u.id == m)
  }

  lemma GreatestAppend(m: int, history: seq<Update>, u: Update, channel: Channel, symbol: string)
    requires Greatest(m, history, channel, symbol)
    ensures Greatest(if Alike(u, channel, symbol) && u.id >= m then u.id else m, history + [u], channel, symbol)
  {
    var all := history + [u];
    assert u in all;
    assert forall v :: v in history ==> v in all;
    assert forall v :: v in all ==> v in history || v == u;
  }

  /** The stored id of each channel of each symbol is the greatest of all ids reported for it, by
      whichever stream, and of zero. Other channels and other symbols play no part. */
  lemma {:induction false} StoredIsGreatest(history: seq<Update>, channel: Channel, symbol: string)
    ensures Greatest(LastId(Lookup(Run(history), symbol), channel), history, channel, symbol)
  {
    hide Greatest;
    if history == [] {
      assert Greatest(0, history, channel, symbol) by {
        EmptyGreatest(channel, symbol);
      }
    } else {
      var front, u := history[..|history| - 1], history[|history| - 1];
      assert history == front + [u];
      StoredIsGreatest(front, channel, symbol);
      GreatestAppend(LastId(Lookup(Run(front), symbol), channel), front, u, channel, symbol);
    }
  }

  lemma EmptyGreatest(channel: Channel, symbol: string)
    ensures Greatest(0, [], channel, symbol)
  {
  }

  predicate Accepted(history: seq<Update>, k: nat)
    requires k < |history|
  {
    Accepts(Run(history[..k]), history[k])
  }

  /** Exactly the left-to-right maxima are accepted: the updates that are not below zero and not below
      any earlier one of their symbol on their channel. */
  lemma AcceptedAreMaxima(history: seq<Update>, k: nat)
    requires k < |history|
    ensures Accepted(history, k) <==>
              && history[k].id >= 0
              && forall i :: 0 <= i < k && Alike(history[i], history[k].channel, history[k].symbol) ==> history[i].id <= history[k].id
  {
    var u, before := history[k], history[..k];
    StoredIsGreatest(before, u.channel, u.symbol);
    forall i | 0 <= i < k
      ensures history[i] in before
    {
      assert before[i] == history[i];
    }
    forall v | v in before
      ensures exists i :: 0 <= i < k && history[i] == v
    {
      var i :| 0 <= i < |before| && before[i] == v;
      assert history[i] == v;
    }
  }

  /** So the accepted updates of a symbol on a channel never go back. */
  lemma AcceptedNeverFall(history: seq<Update>, i: nat, k: nat)
    requires i < k < |history| && Alike(history[i], history[k].channel, history[k].symbol)
    requires Accepted(history, k)
    ensures history[i].id <= history[k].id
  {
    AcceptedAreMaxima(history, k);
  }

  // --- which stream reports first does not matter

  lemma GreatestUnique(m: int, n: int, history: seq<Update>, channel: Channel, symbol: string)
    requires Greatest(m, history, channel, symbol) && Greatest(n, history, channel, symbol)
    ensures m == n
  {
  }

  /** Two histories with the same updates, in any order and any number of times, as when two streams
      deliver the same data, leave the same ids. */
  lemma MergeDoesNotMatter(a: seq<Update>, b: seq<Update>, channel: Channel, symbol: string)
    requires forall u :: Alike(u, channel, symbol) ==> (u in a <==> u in b)
    ensures LastId(Lookup(Run(a), symbol), channel) == LastId(Lookup(Run(b), symbol), channel)
  {
    StoredIsGreatest(a, channel, symbol);
    StoredIsGreatest(b, channel, symbol);
    var m := LastId(Lookup(Run(b), symbol), channel);
    assert Greatest(m, a, channel, symbol);
    GreatestUnique(LastId(Lookup(Run(a), symbol), channel), m, a, channel, symbol);
  }

  /** The updates of one channel of one symbol. */
  function Only(history: seq<Update>, channel: Channel, symbol: string): seq<Update> {
    if history == [] then []
    else
      var u := history[|history| - 1];
      Only(history[..|history| - 1], channel, symbol) + if Alike(u, channel, symbol) then [u] else []
  }

  lemma {:induction false} OnlyKeeps(history: seq<Update>, channel: Channel, symbol: string, u: Update)
    requires Alike(u, channel, symbol)
    ensures u in Only(history, channel, symbol) <==> u in history
  {
    if history != [] {
      OnlyKeeps(history[..|history| - 1], channel, symbol, u);
      assert history == history[..|history| - 1] + [history[|history| - 1]];
    }
  }

  /** An update is accepted or dropped as if the updates of other symbols and of the other channel had
      never been there. */
  lemma SymbolsIndependent(history: seq<Update>, u: Update)
    ensures Accepts(Run(history), u) <==> Accepts(Run(Only(history, u.channel, u.symbol)), u)
  {
    forall v | Alike(v, u.channel, u.symbol)
      ensures v in Only(history, u.channel, u.symbol) <==> v in history
    {
      OnlyKeeps(history, u.channel, u.symbol, v);
    }
    MergeDoesNotMatter(history, Only(history, u.channel, u.symbol), u.channel, u.symbol);
  }
}
