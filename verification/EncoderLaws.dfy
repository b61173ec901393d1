/** What the receiver makes of an encoded request: it reads back what was meant, each key once. */
module EncoderLaws {
  import opened Wrappers
  import opened Ascii
  import opened Accounts
  import opened EnumMap
  import opened Fields
  import opened Encoder

  function FieldsOf(r: Request): seq<Field> {
    Listed(ContentOf(r))
  }

  // --- where a parameter is printed

  lemma {:induction false} ListedGrows(content: Content, n: nat)
    requires n <= |content|
    ensures Listed(content[..n]) <= Listed(content)
  {
    hide Optional;
    if n < |content| {
      ListedGrows(content[..|content| - 1], n);
      assert content[..|content| - 1][..n] == content[..n];
    } else {
      assert content[..n] == content;
    }
  }

  /** A parameter that has a value is printed behind all earlier ones. */
  lemma ListedAt(content: Content, i: nat)
    requires i < |content| && content[i].1.Some?
    ensures var place := |Listed(content[..i])|;
            place < |Listed(content)| && Listed(content)[place] == Field(content[i].0, content[i].1.value)
    ensures |Listed(content[..i + 1])| == |Listed(content[..i])| + 1
  {
    assert content[..i + 1] == content[..i] + [content[i]];
    ListedAppend(content[..i], content[i].0, content[i].1);
    ListedGrows(content, i + 1);
  }

  lemma {:induction false} ListedMonotone(content: Content, i: nat, j: nat)
    requires i <= j <= |content|
    ensures |Listed(content[..i])| <= |Listed(content[..j])|
  {
    ListedGrows(content[..j], i);
    assert content[..j][..i] == content[..i];
  }

  /** Whatever is printed is a parameter that has a value. */
  lemma {:induction false} ListedFrom(content: Content, place: nat) returns (i: nat)
    requires place < |Listed(content)|
    ensures i < |content| && content[i].1.Some? && Listed(content)[place] == Field(content[i].0, content[i].1.value)
    ensures place == |Listed(content[..i])|
  {
    var front := content[..|content| - 1];
    if place < |Listed(front)| {
      i := ListedFrom(front, place);
      assert front[..i] == content[..i];
    } else {
      i := |content| - 1;
    }
  }

  // --- the order of the keys

  ghost predicate Ascending(fields: seq<Field>) {
    forall i, j :: 0 <= i < j < |fields| ==> Less(Name(fields[i].key), Name(fields[j].key))
  }

  ghost predicate Distinct(fields: seq<Field>) {
    forall i, j :: 0 <= i < j < |fields| ==> Name(fields[i].key) != Name(fields[j].key)
  }

  /** The parameters behind two printed fields. */
  lemma Origins(content: Content, p: nat, q: nat) returns (i: nat, j: nat)
    requires p < q < |Listed(content)|
    ensures i < j < |content| && content[i].1.Some? && content[j].1.Some?
    ensures Listed(content)[p].key == content[i].0 && Listed(content)[q].key == content[j].0
  {
    i := ListedFrom(content, p);
    j := ListedFrom(content, q);
    if j <= i {
      ListedMonotone(content, j, i);
    }
  }

  ghost predicate RanksAscend(content: Content) {
    forall i, j :: 0 <= i < j < |content| && content[i].1.Some? && content[j].1.Some? ==> Rank(content[i].0) < Rank(content[j].0)
  }

  lemma PairAscends(content: Content, p: nat, q: nat)
    requires RanksAscend(content) && p < q < |Listed(content)|
    ensures Less(Name(Listed(content)[p].key), Name(Listed(content)[q].key))
  {
    hide Rank, Name, Less;
    var i, j := Origins(content, p, q);
    NamesOrdered(content[i].0, content[j].0);
  }

  lemma AscendsIf(content: Content)
    requires RanksAscend(content)
    ensures Ascending(Listed(content))
  {
    hide RanksAscend, Name, Less, Listed;
    forall p, q | 0 <= p < q < |Listed(content)|
      ensures Less(Name(Listed(content)[p].key), Name(Listed(content)[q].key))
    {
      PairAscends(content, p, q);
    }
  }

  lemma DescendsAt(content: Content, i: nat, j: nat)
    requires i < j < |content| && content[i].1.Some? && content[j].1.Some? && Rank(content[j].0) < Rank(content[i].0)
    ensures !Ascending(Listed(content))
  {
    hide Rank, Name, Less;
    ListedAt(content, i);
    ListedAt(content, j);
    ListedMonotone(content, i + 1, j);
    NamesOrdered(content[i].0, content[j].0);
    var fields := Listed(content);
    var p, q := |Listed(content[..i])|, |Listed(content[..j])|;
    assert p < q && !Less(Name(fields[p].key), Name(fields[q].key));
  }

  lemma DistinctIf(content: Content)
    requires forall i, j :: 0 <= i < j < |content| ==> content[i].0 != content[j].0
    ensures Distinct(Listed(content))
  {
    hide Name;
    var fields := Listed(content);
    forall p, q | 0 <= p < q < |fields|
      ensures Name(fields[p].key) != Name(fields[q].key)
    {
      var i, j := Origins(content, p, q);
      NamesOrdered(content[i].0, content[j].0);
    }
  }

  ghost predicate Rising(content: Content) {
    forall i :: 0 <= i < |content| - 1 ==> Rank(content[i].0) < Rank(content[i + 1].0)
  }

  lemma {:induction false} RisingFar(content: Content, i: nat, j: nat)
    requires Rising(content) && i < j < |content|
    ensures Rank(content[i].0) < Rank(content[j].0)
  {
    hide Rank;
    if i + 1 < j {
      RisingFar(content, i, j - 1);
    }
  }

  /** Requests whose keys come in alphabetical order. */
  predicate Sorted(r: Request) {
    match r
    case AmendOrderJson(_, _, _, _, _, _) => false
    case CancelOrderUrl(_, _, restrictions, _, _) => restrictions.None?
    case CancelAllUrl(_, _, _, _) => false
    case _ => true
  }

  lemma RisingAscends(content: Content)
    requires Rising(content)
    ensures Ascending(Listed(content))
    ensures forall i, j :: 0 <= i < j < |content| ==> content[i].0 != content[j].0
  {
    hide Rank;
    forall i, j | 0 <= i < j < |content|
      ensures Rank(content[i].0) < Rank(content[j].0)
    {
      RisingFar(content, i, j);
    }
    AscendsIf(content);
  }

  ghost predicate HasKeys(content: Content, keys: seq<Key>) {
    |content| == |keys| && forall i :: 0 <= i < |keys| ==> content[i].0 == keys[i]
  }

  lemma KeysRise(content: Content, keys: seq<Key>)
    requires HasKeys(content, keys)
    requires forall i :: 0 <= i < |keys| - 1 ==> Rank(keys[i]) < Rank(keys[i + 1])
    ensures Rising(content)
  {
    hide Rank;
  }

  const NEW_ORDER_KEYS := [
    IsIsolated, NewClientOrderId, Price, Quantity, RecvWindow, SelfTradePreventionMode, Key.Side, SideEffectType, StopPrice, Symbol,
    Key.TimeInForce, Timestamp, Type]

  const PLACE_ORDER_KEYS := [
    NewClientOrderId, Price, Quantity, RecvWindow, SelfTradePreventionMode, Key.Side, StopPrice, Symbol, Key.TimeInForce, Timestamp, Type]

  lemma NewOrderHas(r: Request)
    requires r.NewOrderUrl?
    ensures HasKeys(ContentOf(r), NEW_ORDER_KEYS)
  {
    hide Whole, SideText, TypeText, MapOrderType, MapTimeInForce, MapSide, Defined, Isolated;
  }

  lemma PlaceOrderHas(r: Request)
    requires r.PlaceOrderJson?
    ensures HasKeys(ContentOf(r), PLACE_ORDER_KEYS)
  {
    hide Whole, SideText, TypeText, MapOrderType, MapTimeInForce, MapSide, Defined;
  }

  lemma NewOrderRises(r: Request)
    requires r.NewOrderUrl?
    ensures Rising(ContentOf(r))
  {
    NewOrderHas(r);
    hide ContentOf, HasKeys, Rising;
    KeysRise(ContentOf(r), NEW_ORDER_KEYS);
  }

  lemma PlaceOrderRises(r: Request)
    requires r.PlaceOrderJson?
    ensures Rising(ContentOf(r))
  {
    PlaceOrderHas(r);
    hide ContentOf, HasKeys, Rising;
    KeysRise(ContentOf(r), PLACE_ORDER_KEYS);
  }

  lemma OthersRise(r: Request)
    requires r.CancelOrderJson? || r.MyTradesUrl?
    ensures Rising(ContentOf(r))
  {
    hide Whole;
  }

  lemma CancelAscends(r: Request)
    requires r.CancelOrderUrl?
    ensures Ascending(Listed(ContentOf(r))) <==> r.restrictions.None?
  {
    hide Whole;
    if r.restrictions.None? {
      AscendsIf(ContentOf(r));
    } else {
      DescendsAt(ContentOf(r), 1, 2);
    }
  }

  /** Exactly when the keys come in alphabetical order, as a signature over sorted parameters would need:
      always in new orders, in cancellations over the web socket and in requests for trades; in
      cancellations over REST as long as there are no restrictions; never in amendments and in
      cancellations of all orders. */
  lemma KeysAscend(r: Request)
    ensures Ascending(FieldsOf(r)) <==> Sorted(r)
  {
    hide Ascending, Whole, Listed;
    if r.NewOrderUrl? {
      NewOrderRises(r);
      RisingAscends(ContentOf(r));
    } else if r.PlaceOrderJson? {
      PlaceOrderRises(r);
      RisingAscends(ContentOf(r));
    } else if r.CancelOrderJson? || r.MyTradesUrl? {
      OthersRise(r);
      RisingAscends(ContentOf(r));
    } else if r.CancelOrderUrl? {
      CancelAscends(r);
    } else if r.AmendOrderJson? {
      DescendsAt(ContentOf(r), 2, 3);
    } else {
      DescendsAt(ContentOf(r), 1, 2);
    }
  }

  /** Every key is sent at most once. */
  lemma KeysDistinct(r: Request)
    ensures Distinct(FieldsOf(r))
    ensures forall i, j :: 0 <= i < j < |ContentOf(r)| ==> ContentOf(r)[i].0 != ContentOf(r)[j].0
  {
    hide Distinct, Ascending, Whole, Listed, SideText, TypeText, MapOrderType, MapTimeInForce, MapSide, Defined;
    if r.NewOrderUrl? {
      NewOrderRises(r);
      RisingAscends(ContentOf(r));
    } else if r.PlaceOrderJson? {
      PlaceOrderRises(r);
      RisingAscends(ContentOf(r));
    } else if r.CancelOrderJson? || r.MyTradesUrl? {
      OthersRise(r);
      RisingAscends(ContentOf(r));
    }
    DistinctIf(ContentOf(r));
  }

  // --- reading a request

  /** The parameters that the encoder itself words: numbers and enumerators. The others are free text. */
  predicate Worded(k: Key) {
    k in {IsIsolated, Limit, RecvWindow, Key.Side, StartTime, Key.TimeInForce, Timestamp, Type}
  }

  /** Where a value would not be ended early. */
  predicate CleanText(r: Request, key: Key, value: string) {
    if IsJson(r) then CleanValue(Field(key, value)) else '&' !in value
  }

  /** No free text contains what would end it. */
  ghost predicate Clean(r: Request) {
    forall i :: 0 <= i < |ContentOf(r)| && ContentOf(r)[i].1.Some? && !Worded(ContentOf(r)[i].0) ==>
      CleanText(r, ContentOf(r)[i].0, ContentOf(r)[i].1.value)
  }

  /** Letters, digits, the underscore and the minus sign. */
  predicate Harmless(s: string) {
    forall i :: 0 <= i < |s| ==> s[i] in {'_', '-'} || 'A' <= s[i] <= 'Z' || 'a' <= s[i] <= 'z' || '0' <= s[i] <= '9'
  }

  lemma WholeHarmless(i: int)
    ensures Whole(i) != "" && Harmless(Whole(i))
  {
  }

  lemma SidesHarmless(side: ExchangeSide)
    ensures Harmless(SideText(side)) && Harmless("TRUE") && Harmless("FALSE")
  {
  }

  lemma TypesHarmless(orderType: ExchangeType)
    ensures Harmless(TypeText(orderType))
  {
  }

  lemma TimesHarmless(timeInForce: ExchangeTimeInForce)
    ensures Harmless(TimeText(timeInForce))
  {
  }

  ghost predicate WordedHarmless(r: Request) {
    forall i :: 0 <= i < |ContentOf(r)| && ContentOf(r)[i].1.Some? && Worded(ContentOf(r)[i].0) ==>
      Harmless(ContentOf(r)[i].1.value) && (Numeric(ContentOf(r)[i].0) ==> ContentOf(r)[i].1.value != "")
  }

  lemma NewOrderWorded(r: Request)
    requires r.NewOrderUrl?
    ensures WordedHarmless(r)
  {
    WholeHarmless(r.recvWindow);
    WholeHarmless(r.now);
    SidesHarmless(MapSide(r.create.side));
    TypesHarmless(MapOrderType(r.create));
    TimesHarmless(MapTimeInForce(r.create));
    hide Harmless, Whole, MapSide, SideText, MapOrderType, TypeText, MapTimeInForce, TimeText, Numeric;
  }

  lemma PlaceOrderWorded(r: Request)
    requires r.PlaceOrderJson?
    ensures WordedHarmless(r)
  {
    WholeHarmless(r.recvWindow);
    WholeHarmless(r.now);
    SidesHarmless(MapSide(r.create.side));
    TypesHarmless(MapOrderType(r.create));
    TimesHarmless(MapTimeInForce(r.create));
    hide Harmless, Whole, MapSide, SideText, MapOrderType, TypeText, MapTimeInForce, TimeText, Numeric;
  }

  lemma AmendJsonWorded(r: Request)
    requires r.AmendOrderJson?
    ensures WordedHarmless(r)
  {
    WholeHarmless(r.recvWindow);
    WholeHarmless(r.now);
    hide Harmless, Whole, Numeric;
  }

  lemma CancelJsonWorded(r: Request)
    requires r.CancelOrderJson?
    ensures WordedHarmless(r)
  {
    WholeHarmless(r.recvWindow);
    WholeHarmless(r.now);
    hide Harmless, Whole, Numeric;
  }

  lemma CancelUrlWorded(r: Request)
    requires r.CancelOrderUrl?
    ensures WordedHarmless(r)
  {
    WholeHarmless(r.recvWindow);
    WholeHarmless(r.now);
    SidesHarmless(ExchangeSide.BUY);
    hide Harmless, Whole, Numeric;
  }

  lemma CancelAllWorded(r: Request)
    requires r.CancelAllUrl?
    ensures WordedHarmless(r)
  {
    WholeHarmless(r.recvWindow);
    WholeHarmless(r.now);
    SidesHarmless(ExchangeSide.BUY);
    hide Harmless, Whole, Numeric;
  }

  lemma TradesWorded(r: Request)
    requires r.MyTradesUrl?
    ensures WordedHarmless(r)
  {
    WholeHarmless(r.limit);
    WholeHarmless(Milliseconds(r.now * 1_000_000 - r.lookback));
    hide Harmless, Whole, Milliseconds, Numeric;
  }

  lemma HarmlessIsClean(r: Request, key: Key, value: string)
    requires Harmless(value) && (Numeric(key) ==> value != "")
    ensures CleanText(r, key, value)
  {
  }

  /** If the free texts are clean, so is all that is printed. */
  lemma CleanFields(r: Request)
    requires Clean(r)
    ensures if IsJson(r) then JsonClean(FieldsOf(r)) else QueryClean(FieldsOf(r))
  {
    assert WordedHarmless(r) by {
      hide WordedHarmless;
      match r
      case NewOrderUrl(_, _, _, _, _, _) => NewOrderWorded(r);
      case PlaceOrderJson(_, _, _, _, _) => PlaceOrderWorded(r);
      case AmendOrderJson(_, _, _, _, _, _) => AmendJsonWorded(r);
      case CancelOrderJson(_, _, _, _, _, _) => CancelJsonWorded(r);
      case CancelOrderUrl(_, _, _, _, _) => CancelUrlWorded(r);
      case CancelAllUrl(_, _, _, _) => CancelAllWorded(r);
      case MyTradesUrl(_, _, _, _) => TradesWorded(r);
    }
    hide ContentOf, Harmless, Worded, Numeric;
    forall f | f in FieldsOf(r)
      ensures CleanText(r, f.key, f.value)
    {
      var place :| 0 <= place < |FieldsOf(r)| && FieldsOf(r)[place] == f;
      var i := ListedFrom(ContentOf(r), place);
      if Worded(f.key) {
        HarmlessIsClean(r, f.key, f.value);
      }
    }
  }

  /** The value of a name in what has been read. */
  function Find<T>(pairs: seq<(string, T)>, name: string): Option<T> {
    if pairs == [] then None else if pairs[0].0 == name then Some(pairs[0].1) else Find(pairs[1..], name)
  }

  lemma {:induction false} FindAt<T>(pairs: seq<(string, T)>, i: nat)
    requires i < |pairs| && forall j :: 0 <= j < i ==> pairs[j].0 != pairs[i].0
    ensures Find(pairs, pairs[i].0) == Some(pairs[i].1)
  {
    if i > 0 {
      assert pairs[0].0 != pairs[i].0;
      FindAt(pairs[1..], i - 1);
    }
  }

  lemma {:induction false} FindNone<T>(pairs: seq<(string, T)>, name: string)
    requires forall j :: 0 <= j < |pairs| ==> pairs[j].0 != name
    ensures Find(pairs, name) == None
  {
    if pairs != [] {
      FindNone(pairs[1..], name);
    }
  }

  /** What the receiver finds under a name of a query string. */
  function FindInQuery(text: string, name: string): Option<string> {
    match ReadQuery(text)
    case None => None
    case Some(pairs) => Find(pairs, name)
  }

  function FindInObject(text: string, name: string): Option<Value> {
    match ReadObject(text)
    case None => None
    case Some(pairs) => Find(pairs, name)
  }

  /** Under every key the receiver finds the value that was meant for it, or nothing if none was. */
  lemma QueryReceived(text: string, r: Request, i: nat)
    requires Prints(text, r) && Clean(r) && !IsJson(r) && i < |ContentOf(r)|
    ensures FindInQuery(text, Name(ContentOf(r)[i].0)) == ContentOf(r)[i].1
  {
    hide ContentOf, Name, ReadQuery, Query;
    var content, fields := ContentOf(r), FieldsOf(r);
    var pairs := Named(fields);
    CleanFields(r);
    QueryRoundTrip(fields);
    KeysDistinct(r);
    if content[i].1.Some? {
      ListedAt(content, i);
      var place := |Listed(content[..i])|;
      assert pairs[place] == (Name(content[i].0), content[i].1.value);
      FindAt(pairs, place);
    } else {
      AbsentKey(content, i);
      FindNone(pairs, Name(content[i].0));
    }
  }

  lemma ObjectReceived(text: string, r: Request, i: nat)
    requires Prints(text, r) && Clean(r) && IsJson(r) && i < |ContentOf(r)|
    ensures var (key, value) := ContentOf(r)[i];
            FindInObject(text, Name(key)) == if value.Some? then Some(ValueOf(Field(key, value.value))) else None
  {
    hide ContentOf, Name, ReadObject, Json, IsJson;
    var content, fields := ContentOf(r), FieldsOf(r);
    var pairs := Members(fields);
    CleanFields(r);
    JsonRoundTrip(fields);
    KeysDistinct(r);
    if content[i].1.Some? {
      ListedAt(content, i);
      var place := |Listed(content[..i])|;
      assert pairs[place] == (Name(content[i].0), ValueOf(Field(content[i].0, content[i].1.value)));
      FindAt(pairs, place);
    } else {
      AbsentKey(content, i);
      FindNone(pairs, Name(content[i].0));
    }
  }

  lemma AbsentKey(content: Content, i: nat)
    requires i < |content| && content[i].1.None?
    requires forall j, k :: 0 <= j < k < |content| ==> content[j].0 != content[k].0
    ensures forall p :: 0 <= p < |Listed(content)| ==> Name(Listed(content)[p].key) != Name(content[i].0)
  {
    hide Name;
    forall p | 0 <= p < |Listed(content)|
      ensures Name(Listed(content)[p].key) != Name(content[i].0)
    {
      var j := ListedFrom(content, p);
      NamesOrdered(content[j].0, content[i].0);
    }
  }

  // --- the two encoders of new orders agree

  function Without(fields: seq<Field>, keys: set<Key>): seq<Field> {
    if fields == [] then []
    else Without(fields[..|fields| - 1], keys) + if fields[|fields| - 1].key in keys then [] else [fields[|fields| - 1]]
  }

  function Drop(content: Content, keys: set<Key>): Content {
    if content == [] then []
    else Drop(content[..|content| - 1], keys) + if content[|content| - 1].0 in keys then [] else [content[|content| - 1]]
  }

  lemma {:induction false} WithoutAppend(fields: seq<Field>, key: Key, value: Option<string>, keys: set<Key>)
    ensures Without(fields + Optional(key, value), keys) == Without(fields, keys) + if key in keys then [] else Optional(key, value)
  {
    if value.Some? {
      assert (fields + [Field(key, value.value)])[..|fields|] == fields;
    } else {
      assert fields + [] == fields;
    }
  }

  lemma {:induction false} DropListed(content: Content, keys: set<Key>)
    ensures Without(Listed(content), keys) == Listed(Drop(content, keys))
  {
    if content != [] {
      var front := content[..|content| - 1];
      var (key, value) := content[|content| - 1];
      DropListed(front, keys);
      WithoutAppend(Listed(front), key, value, keys);
      if key in keys {
        assert Drop(content, keys) == Drop(front, keys);
      } else {
        assert Drop(content, keys) == Drop(front, keys) + [(key, value)];
        ListedAppend(Drop(front, keys), key, value);
      }
      assert Listed(content) == Listed(front) + Optional(key, value);
      hide Without, Drop, Listed, Optional;
    }
  }

  lemma {:induction false} DropConcat(a: Content, b: Content, keys: set<Key>)
    ensures Drop(a + b, keys) == Drop(a, keys) + Drop(b, keys)
  {
    if b == [] {
      assert a + b == a;
    } else {
      var front, last := b[..|b| - 1], b[|b| - 1];
      assert (a + b)[..|a + b| - 1] == a + front;
      DropConcat(a, front, keys);
    }
  }

  lemma {:induction false} DropNothing(content: Content, keys: set<Key>)
    requires forall i :: 0 <= i < |content| ==> content[i].0 !in keys
    ensures Drop(content, keys) == content
  {
    if content != [] {
      DropNothing(content[..|content| - 1], keys);
    }
  }

  lemma DropAround(first: Content, one: (Key, Option<string>), rest: Content, keys: set<Key>)
    requires one.0 in keys
    requires forall i :: 0 <= i < |first| ==> first[i].0 !in keys
    ensures Drop(first + [one] + rest, keys) == first + Drop(rest, keys)
  {
    assert Drop([one], keys) == [];
    DropConcat(first + [one], rest, keys);
    DropConcat(first, [one], keys);
    DropNothing(first, keys);
    hide Drop;
    assert first + [] == first;
  }

  const MARGIN_KEYS := {IsIsolated, SideEffectType}

  lemma ContentsAgree(url: Request, json: Request)
    requires url.NewOrderUrl? && json.PlaceOrderJson? && url.create == json.create && url.requestId == json.requestId
    requires url.prevention == json.prevention && url.recvWindow == json.recvWindow && url.now == json.now
    ensures Drop(ContentOf(url), MARGIN_KEYS) == ContentOf(json)
  {
    hide Drop, Whole, SideText, TypeText, MapOrderType, MapTimeInForce, MapSide, Defined, Isolated;
    var content, other := ContentOf(url), ContentOf(json);
    var rest := other[..6] + [content[7]] + other[6..];
    assert content == [] + [content[0]] + rest;
    DropAround([], content[0], rest, MARGIN_KEYS);
    DropAround(other[..6], content[7], other[6..], MARGIN_KEYS);
    DropNothing(other[6..], MARGIN_KEYS);
    assert other[..6] + other[6..] == other;
  }

  /** The REST and the web-socket encoder send the same parameters in the same order, apart from the
      two that are about margin. */
  lemma EncodersAgree(create: CreateOrder, requestId: string, prevention: Option<string>, recvWindow: int, now: int, sideEffect: Option<string>)
    ensures Without(FieldsOf(NewOrderUrl(create, requestId, prevention, recvWindow, now, sideEffect)), MARGIN_KEYS)
            == FieldsOf(PlaceOrderJson(create, requestId, prevention, recvWindow, now))
  {
    hide ContentOf, Drop, Without, Listed;
    var url := NewOrderUrl(create, requestId, prevention, recvWindow, now, sideEffect);
    ContentsAgree(url, PlaceOrderJson(create, requestId, prevention, recvWindow, now));
    DropListed(ContentOf(url), MARGIN_KEYS);
  }

  // --- order types

  /** The exchange's type of an order, reported back, is the type that the order had; so is its side. */
  lemma TypeSurvives(create: CreateOrder)
    ensures TypeFrom(ReadType(TypeText(MapOrderType(create)))) == create.orderType
    ensures SideFrom(ReadSide(SideText(MapSide(create.side)))) == create.side
  {
    ReadTexts(MapSide(create.side), MapOrderType(create), ExchangeTimeInForce.UNDEFINED_INTERNAL);
  }

  /** A time in force is sent exactly for orders that rest or may rest without being post-only, and
      only if the exchange has it; it then comes back as it was. */
  lemma TimeInForceSurvives(create: CreateOrder)
    ensures Defined(MapTimeInForce(create)).Some? <==>
              && create.orderType != OrderType.MARKET
              && !(create.orderType == OrderType.LIMIT && create.participateDoNotInitiate)
              && create.timeInForce in {EnumMap.TimeInForce.GTC, EnumMap.TimeInForce.IOC, EnumMap.TimeInForce.FOK}
    ensures Defined(MapTimeInForce(create)).Some? ==> TimeFrom(ReadTime(Defined(MapTimeInForce(create)).value)) == create.timeInForce
  {
    ReadTexts(ExchangeSide.UNDEFINED_INTERNAL, ExchangeType.UNDEFINED_INTERNAL, MapTimeInForce(create));
  }

  /** What the receiver of either encoding finds as text. */
  function Found(text: string, json: bool, name: string): Option<string> {
    if !json then FindInQuery(text, name)
    else match FindInObject(text, name)
      case Some(Text(value)) => Some(value)
      case _ => None
  }

  lemma FoundAt(text: string, r: Request, i: nat)
    requires Prints(text, r) && Clean(r) && i < |ContentOf(r)| && !Numeric(ContentOf(r)[i].0)
    ensures Found(text, IsJson(r), Name(ContentOf(r)[i].0)) == ContentOf(r)[i].1
  {
    hide ContentOf, FindInQuery, FindInObject, Name, Clean, Prints, IsJson, Numeric;
    if IsJson(r) {
      ObjectReceived(text, r, i);
    } else {
      QueryReceived(text, r, i);
    }
  }

  /** Where an order's type, side and prices are. */
  lemma Places(r: Request) returns (orderType: nat, side: nat, price: nat, stopPrice: nat)
    requires r.NewOrderUrl? || r.PlaceOrderJson?
    ensures orderType < |ContentOf(r)| && ContentOf(r)[orderType] == (Type, Some(TypeText(MapOrderType(r.create))))
    ensures side < |ContentOf(r)| && ContentOf(r)[side] == (Key.Side, Some(SideText(MapSide(r.create.side))))
    ensures price < |ContentOf(r)| && ContentOf(r)[price] == (Price, r.create.price)
    ensures stopPrice < |ContentOf(r)| && ContentOf(r)[stopPrice] == (StopPrice, r.create.stopPrice)
  {
    hide Whole, SideText, TypeText, MapOrderType, MapTimeInForce, MapSide, Defined, Isolated;
    orderType, side, price, stopPrice := if r.NewOrderUrl? then 12 else 10, if r.NewOrderUrl? then 6 else 5,
                                         if r.NewOrderUrl? then 2 else 1, if r.NewOrderUrl? then 8 else 6;
  }

  /** From an order to the wire and back: the type and the side that the receiver of either encoding
      reads, mapped back, are those of the order, and so are the prices. */
  lemma OrderReceived(text: string, r: Request)
    requires Prints(text, r) && Clean(r) && (r.NewOrderUrl? || r.PlaceOrderJson?)
    ensures var orderType, side := Found(text, IsJson(r), Name(Type)), Found(text, IsJson(r), Name(Key.Side));
            && orderType.Some? && TypeFrom(ReadType(orderType.value)) == r.create.orderType
            && side.Some? && SideFrom(ReadSide(side.value)) == r.create.side
    ensures Found(text, IsJson(r), Name(Price)) == r.create.price
    ensures Found(text, IsJson(r), Name(StopPrice)) == r.create.stopPrice
  {
    TypeSurvives(r.create);
    hide *;
    var orderType, side, price, stopPrice := Places(r);
    assert !Numeric(Type) && !Numeric(Key.Side) && !Numeric(Price) && !Numeric(StopPrice) by {
      TextKeys();
    }
    FoundAt(text, r, orderType);
    FoundAt(text, r, side);
    FoundAt(text, r, price);
    FoundAt(text, r, stopPrice);
  }

  lemma TextKeys()
    ensures !Numeric(Type) && !Numeric(Key.Side) && !Numeric(Price) && !Numeric(StopPrice)
  {
  }
}
