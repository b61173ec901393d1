/** The parameters of a request, as a query string or as a JSON object, and how the receiving side reads
    them back. */
module Fields {
  import opened Wrappers
  import opened Ascii
  import opened SubscribeMessage

  datatype Key =
    | CancelRestrictions
    | IsIsolated
    | Limit
    | NewClientOrderId
    | NewQty
    | OrderId
    | OrigClientOrderId
    | Price
    | Quantity
    | RecvWindow
    | SelfTradePreventionMode
    | Side
    | SideEffectType
    | StartTime
    | StopPrice
    | Symbol
    | TimeInForce
    | Timestamp
    | Type

  const KEYS := [
    CancelRestrictions, IsIsolated, Limit, NewClientOrderId, NewQty, OrderId, OrigClientOrderId, Price, Quantity, RecvWindow,
    SelfTradePreventionMode, Side, SideEffectType, StartTime, StopPrice, Symbol, TimeInForce, Timestamp, Type]

  function Rank(k: Key): (r: nat)
    ensures r < |KEYS| && KEYS[r] == k
  {
    match k
    case CancelRestrictions => 0
    case IsIsolated => 1
    case Limit => 2
    case NewClientOrderId => 3
    case NewQty => 4
    case OrderId => 5
    case OrigClientOrderId => 6
    case Price => 7
    case Quantity => 8
    case RecvWindow => 9
    case SelfTradePreventionMode => 10
    case Side => 11
    case SideEffectType => 12
    case StartTime => 13
    case StopPrice => 14
    case Symbol => 15
    case TimeInForce => 16
    case Timestamp => 17
    case Type => 18
  }

  function Name(k: Key): string {
    match k
    case CancelRestrictions => "cancelRestrictions"
    case IsIsolated => "isIsolated"
    case Limit => "limit"
    case NewClientOrderId => "newClientOrderId"
    case NewQty => "newQty"
    case OrderId => "orderId"
    case OrigClientOrderId => "origClientOrderId"
    case Price => "price"
    case Quantity => "quantity"
    case RecvWindow => "recvWindow"
    case SelfTradePreventionMode => "selfTradePreventionMode"
    case Side => "side"
    case SideEffectType => "sideEffectType"
    case StartTime => "startTime"
    case StopPrice => "stopPrice"
    case Symbol => "symbol"
    case TimeInForce => "timeInForce"
    case Timestamp => "timestamp"
    case Type => "type"
  }

  // --- the order of the names

  /** Alphabetical order. */
  predicate Less(a: string, b: string) {
    b != "" && (a == "" || a[0] < b[0] || (a[0] == b[0] && Less(a[1..], b[1..])))
  }

  lemma {:induction false} LessAt(a: string, b: string, i: nat)
    requires i <= |a| && i < |b| && a[..i] == b[..i] && (i < |a| ==> a[i] < b[i])
    ensures Less(a, b)
  {
    if i > 0 {
      assert a[..i][0] == a[0] && b[..i][0] == b[0];
      assert a[1..][..i - 1] == a[..i][1..] && b[1..][..i - 1] == b[..i][1..];
      LessAt(a[1..], b[1..], i - 1);
    }
  }

  lemma {:induction false} LessTransitive(a: string, b: string, c: string)
    requires Less(a, b) && Less(b, c)
    ensures Less(a, c)
  {
    if a != "" && a[0] == b[0] == c[0] {
      LessTransitive(a[1..], b[1..], c[1..]);
    }
  }

  lemma {:induction false} LessIrreflexive(a: string)
    ensures !Less(a, a)
  {
    if a != "" {
      LessIrreflexive(a[1..]);
    }
  }

  lemma EarlyNeighbours()
    ensures Less("cancelRestrictions", "isIsolated")
    ensures Less("isIsolated", "limit")
    ensures Less("limit", "newClientOrderId")
    ensures Less("newClientOrderId", "newQty")
    ensures Less("newQty", "orderId")
    ensures Less("orderId", "origClientOrderId")
  {
    hide Less;
    LessAt("cancelRestrictions", "isIsolated", 0);
    LessAt("isIsolated", "limit", 0);
    LessAt("limit", "newClientOrderId", 0);
    LessAt("newClientOrderId", "newQty", 3);
    LessAt("newQty", "orderId", 0);
    LessAt("orderId", "origClientOrderId", 2);
  }

  lemma MiddleNeighbours()
    ensures Less("origClientOrderId", "price")
    ensures Less("price", "quantity")
    ensures Less("quantity", "recvWindow")
    ensures Less("recvWindow", "selfTradePreventionMode")
    ensures Less("selfTradePreventionMode", "side")
    ensures Less("side", "sideEffectType")
  {
    hide Less;
    LessAt("origClientOrderId", "price", 0);
    LessAt("price", "quantity", 0);
    LessAt("quantity", "recvWindow", 0);
    LessAt("recvWindow", "selfTradePreventionMode", 0);
    LessAt("selfTradePreventionMode", "side", 1);
    LessAt("side", "sideEffectType", 4);
  }

  lemma LateNeighbours()
    ensures Less("sideEffectType", "startTime")
    ensures Less("startTime", "stopPrice")
    ensures Less("stopPrice", "symbol")
    ensures Less("symbol", "timeInForce")
    ensures Less("timeInForce", "timestamp")
    ensures Less("timestamp", "type")
  {
    hide Less;
    LessAt("sideEffectType", "startTime", 1);
    LessAt("startTime", "stopPrice", 2);
    LessAt("stopPrice", "symbol", 1);
    LessAt("symbol", "timeInForce", 0);
    LessAt("timeInForce", "timestamp", 4);
    LessAt("timestamp", "type", 1);
  }

  lemma Neighbours(r: nat)
    requires r + 1 < |KEYS|
    ensures Less(Name(KEYS[r]), Name(KEYS[r + 1]))
  {
    hide Less;
    EarlyNeighbours();
    MiddleNeighbours();
    LateNeighbours();
  }

  lemma {:induction false} NamesAscend(a: Key, b: Key)
    requires Rank(a) < Rank(b)
    ensures Less(Name(a), Name(b))
    decreases Rank(b)
  {
    hide Name;
    var before := KEYS[Rank(b) - 1];
    Neighbours(Rank(b) - 1);
    RankOf(Rank(b) - 1);
    if a != before {
      NamesAscend(a, before);
      LessTransitive(Name(a), Name(before), Name(b));
    }
  }

  lemma RankOf(r: nat)
    requires r < |KEYS|
    ensures Rank(KEYS[r]) == r
  {
  }

  /** The names are in the order of the keys, so no two keys share one. */
  lemma NamesOrdered(a: Key, b: Key)
    ensures Less(Name(a), Name(b)) <==> Rank(a) < Rank(b)
    ensures Name(a) == Name(b) <==> a == b
  {
    hide Name, Less;
    LessIrreflexive(Name(a));
    if Rank(a) < Rank(b) {
      NamesAscend(a, b);
    } else if Rank(b) < Rank(a) {
      NamesAscend(b, a);
      if Less(Name(a), Name(b)) {
        LessTransitive(Name(a), Name(b), Name(a));
      }
    } else {
      assert KEYS[Rank(a)] == a && KEYS[Rank(b)] == b;
    }
  }

  /** Free of everything that means something in a query string or in JSON. */
  ghost predicate Word(s: string) {
    Plain(s) && '=' !in s && '&' !in s
  }

  lemma Letters(s: string)
    requires forall i :: 0 <= i < |s| ==> 'A' <= s[i] <= 'Z' || 'a' <= s[i] <= 'z'
    ensures Word(s)
  {
  }

  lemma EarlyPlain(k: Key)
    ensures Rank(k) < 10 ==> Word(Name(k))
  {
    hide Word;
    match k
    case CancelRestrictions => Letters("cancelRestrictions");
    case IsIsolated => Letters("isIsolated");
    case Limit => Letters("limit");
    case NewClientOrderId => Letters("newClientOrderId");
    case NewQty => Letters("newQty");
    case OrderId => Letters("orderId");
    case OrigClientOrderId => Letters("origClientOrderId");
    case Price => Letters("price");
    case Quantity => Letters("quantity");
    case RecvWindow => Letters("recvWindow");
    case _ =>
  }

  lemma LatePlain(k: Key)
    ensures Rank(k) >= 10 ==> Word(Name(k))
  {
    hide Word;
    match k
    case SelfTradePreventionMode => Letters("selfTradePreventionMode");
    case Side => Letters("side");
    case SideEffectType => Letters("sideEffectType");
    case StartTime => Letters("startTime");
    case StopPrice => Letters("stopPrice");
    case Symbol => Letters("symbol");
    case TimeInForce => Letters("timeInForce");
    case Timestamp => Letters("timestamp");
    case Type => Letters("type");
    case _ =>
  }

  lemma NamesPlain(k: Key)
    ensures Word(Name(k))
  {
    hide Word, Name, Rank;
    EarlyPlain(k);
    LatePlain(k);
  }

  // --- query strings

  datatype Field = Field(key: Key, value: string)

  function Pair(f: Field): string {
    Name(f.key) + "=" + f.value
  }

  function Query(fields: seq<Field>): string {
    if fields == [] then ""
    else if |fields| == 1 then Pair(fields[0])
    else Pair(fields[0]) + "&" + Query(fields[1..])
  }

  /** Names and values of a query string; None if one of its parts has no '='. */
  function ReadQuery(text: string): Option<seq<(string, string)>>
    decreases |text|
  {
    var n := IndexOf(text, '&');
    match ReadPair(text[..n])
    case None => None
    case Some(pair) =>
      if n == |text| then Some([pair])
      else match ReadQuery(text[n + 1..])
        case None => None
        case Some(more) => Some([pair] + more)
  }

  function ReadPair(text: string): Option<(string, string)> {
    var e := IndexOf(text, '=');
    if e == |text| then None else Some((text[..e], text[e + 1..]))
  }

  function Named(fields: seq<Field>): (r: seq<(string, string)>)
    ensures |r| == |fields| && forall i :: 0 <= i < |fields| ==> r[i] == (Name(fields[i].key), fields[i].value)
  {
    seq(|fields|, i requires 0 <= i < |fields| => (Name(fields[i].key), fields[i].value))
  }

  ghost predicate QueryClean(fields: seq<Field>) {
    forall f :: f in fields ==> '&' !in f.value
  }

  lemma ReadOnePair(f: Field)
    ensures ReadPair(Pair(f)) == Some((Name(f.key), f.value))
  {
    var name, pair := Name(f.key), Pair(f);
    NamesPlain(f.key);
    hide Name;
    assert pair[..|name|] == name && pair[|name|] == '=';
    IndexOfIs(pair, '=', |name|);
    assert pair[|name| + 1..] == f.value;
  }

  lemma PairPlain(f: Field)
    requires '&' !in f.value
    ensures '&' !in Pair(f)
  {
    NamesPlain(f.key);
    hide Name;
  }

  lemma ReadLast(f: Field)
    requires '&' !in f.value
    ensures ReadQuery(Pair(f)) == Some([(Name(f.key), f.value)])
  {
    PairPlain(f);
    ReadOnePair(f);
    hide Name, Pair, ReadPair;
    assert Pair(f)[..|Pair(f)|] == Pair(f);
    IndexOfIs(Pair(f), '&', |Pair(f)|);
  }

  lemma ReadFirst(f: Field, rest: string)
    requires '&' !in f.value
    ensures ReadQuery(Pair(f) + "&" + rest) ==
            match ReadQuery(rest)
            case None => None
            case Some(more) => Some([(Name(f.key), f.value)] + more)
  {
    var pair := Pair(f);
    var text := pair + "&" + rest;
    PairPlain(f);
    ReadOnePair(f);
    hide Name, Pair, ReadPair;
    assert text[..|pair|] == pair && text[|pair|] == '&' && text[|pair| + 1..] == rest;
    IndexOfIs(text, '&', |pair|);
  }

  /** Printed parameters are read back as they were, whatever the values are, as long as none of them
      contains the separator. */
  lemma {:induction false} QueryRoundTrip(fields: seq<Field>)
    requires fields != [] && QueryClean(fields)
    ensures ReadQuery(Query(fields)) == Some(Named(fields))
  {
    hide ReadQuery, Pair, Name;
    assert fields[0] in fields;
    if |fields| == 1 {
      ReadLast(fields[0]);
      assert Named(fields) == [(Name(fields[0].key), fields[0].value)];
    } else {
      var rest := fields[1..];
      QueryRoundTrip(rest);
      ReadFirst(fields[0], Query(rest));
      assert Named(fields) == [(Name(fields[0].key), fields[0].value)] + Named(rest);
    }
  }

  lemma {:induction false} QueryAppend(fields: seq<Field>, f: Field)
    ensures Query(fields + [f]) == if fields == [] then Pair(f) else Query(fields) + "&" + Pair(f)
  {
    hide Pair;
    var all := fields + [f];
    if |fields| > 0 {
      assert all[1..] == fields[1..] + [f] && all[0] == fields[0];
      QueryAppend(fields[1..], f);
      if |fields| > 1 {
        assert Pair(all[0]) + "&" + (Query(fields[1..]) + "&" + Pair(f)) == Pair(all[0]) + "&" + Query(fields[1..]) + "&" + Pair(f);
      }
    }
  }

  // --- JSON objects

  datatype Value = Text(text: string) | Number(digits: string)

  /** The keys whose values are sent as numbers. */
  predicate Numeric(k: Key) {
    k in {OrderId, RecvWindow, Timestamp}
  }

  function MemberText(f: Field): string {
    "\"" + Name(f.key) + "\":" + if Numeric(f.key) then f.value else "\"" + f.value + "\""
  }

  /** Members, each followed by a comma. */
  function Terminated(fields: seq<Field>): string {
    if fields == [] then "" else MemberText(fields[0]) + "," + Terminated(fields[1..])
  }

  function Json(fields: seq<Field>): string
    requires fields != []
  {
    "{" + Terminated(fields[..|fields| - 1]) + MemberText(fields[|fields| - 1]) + "}"
  }

  /** Where a number ends. */
  function EndOf(s: string): (i: nat)
    ensures i <= |s|
  {
    if s == "" || s[0] in {',', '}'} then 0 else 1 + EndOf(s[1..])
  }

  /** A value, and what follows it. */
  function ReadValue(text: string): (r: Option<(Value, string)>)
    ensures r.Some? ==> |r.value.1| < |text|
  {
    if text == "" then None
    else if text[0] == '"' then
      var body := text[1..];
      var n := IndexOf(body, '"');
      if n == |body| || '\\' in body[..n] then None else Some((Text(body[..n]), body[n + 1..]))
    else
      var n := EndOf(text);
      if n == 0 then None else Some((Number(text[..n]), text[n..]))
  }

  /** A name, its value, and what follows. */
  function ReadMember(text: string): (r: Option<(string, Value, string)>)
    ensures r.Some? ==> |r.value.2| < |text|
  {
    if text == "" || text[0] != '"' then None
    else
      var body := text[1..];
      var n := IndexOf(body, '"');
      if n + 1 >= |body| || '\\' in body[..n] || body[n + 1] != ':' then None
      else match ReadValue(body[n + 2..])
        case None => None
        case Some(read) => Some((body[..n], read.0, read.1))
  }

  /** The members up to the closing brace, which has to be the end. */
  function ReadMembers(text: string): Option<seq<(string, Value)>>
    decreases |text|
  {
    match ReadMember(text)
    case None => None
    case Some(read) =>
      if read.2 == "}" then Some([(read.0, read.1)])
      else if read.2 == "" || read.2[0] != ',' then None
      else match ReadMembers(read.2[1..])
        case None => None
        case Some(more) => Some([(read.0, read.1)] + more)
  }

  function ReadObject(text: string): Option<seq<(string, Value)>> {
    if text == "" || text[0] != '{' then None else ReadMembers(text[1..])
  }

  function ValueOf(f: Field): Value {
    if Numeric(f.key) then Number(f.value) else Text(f.value)
  }

  function Members(fields: seq<Field>): (r: seq<(string, Value)>)
    ensures |r| == |fields| && forall i :: 0 <= i < |fields| ==> r[i] == (Name(fields[i].key), ValueOf(fields[i]))
  {
    seq(|fields|, i requires 0 <= i < |fields| => (Name(fields[i].key), ValueOf(fields[i])))
  }

  /** Texts without quotes and escapes, numbers without anything that ends them. */
  predicate CleanValue(f: Field) {
    if Numeric(f.key) then f.value != "" && f.value[0] != '"' && ',' !in f.value && '}' !in f.value else Plain(f.value)
  }

  ghost predicate JsonClean(fields: seq<Field>) {
    forall f :: f in fields ==> CleanValue(f)
  }

  lemma {:induction false} EndOfNumber(digits: string, rest: string)
    requires ',' !in digits && '}' !in digits && rest != "" && rest[0] in {',', '}'}
    ensures EndOf(digits + rest) == |digits|
  {
    if digits == "" {
      assert digits + rest == rest;
    } else {
      assert (digits + rest)[1..] == digits[1..] + rest;
      EndOfNumber(digits[1..], rest);
    }
  }

  lemma ReadOneValue(f: Field, rest: string)
    requires CleanValue(f) && rest != "" && rest[0] in {',', '}'}
    ensures ReadValue((if Numeric(f.key) then f.value else "\"" + f.value + "\"") + rest) == Some((ValueOf(f), rest))
  {
    if Numeric(f.key) {
      var text := f.value + rest;
      assert text[0] == f.value[0];
      EndOfNumber(f.value, rest);
      assert text[..|f.value|] == f.value && text[|f.value|..] == rest;
    } else {
      var text := "\"" + f.value + "\"" + rest;
      var body := text[1..];
      assert body == f.value + "\"" + rest;
      assert body[..|f.value|] == f.value && body[|f.value|] == '"';
      IndexOfIs(body, '"', |f.value|);
      assert body[|f.value| + 1..] == rest;
    }
  }

  lemma ReadNamed(name: string, rest: string)
    requires Plain(name)
    ensures ReadMember("\"" + name + "\":" + rest) ==
            match ReadValue(rest)
            case None => None
            case Some(read) => Some((name, read.0, read.1))
  {
    var text := "\"" + name + "\":" + rest;
    var body := text[1..];
    assert body == name + "\":" + rest;
    assert body[|name|] == '"' && body[|name| + 1] == ':' && body[..|name|] == name;
    IndexOfIs(body, '"', |name|);
    assert body[|name| + 2..] == rest;
    hide ReadValue;
  }

  lemma ReadOneMember(f: Field, rest: string)
    requires CleanValue(f) && rest != "" && rest[0] in {',', '}'}
    ensures ReadMember(MemberText(f) + rest) == Some((Name(f.key), ValueOf(f), rest))
  {
    var value := if Numeric(f.key) then f.value else "\"" + f.value + "\"";
    NamesPlain(f.key);
    ReadOneValue(f, rest);
    ReadNamed(Name(f.key), value + rest);
    hide Name, CleanValue, ValueOf, ReadValue, Numeric, ReadMember;
    assert MemberText(f) + rest == "\"" + Name(f.key) + "\":" + (value + rest);
  }

  lemma {:induction false} ReadTerminated(fields: seq<Field>, last: Field)
    requires JsonClean(fields + [last])
    ensures ReadMembers(Terminated(fields) + MemberText(last) + "}") == Some(Members(fields + [last]))
  {
    var all := fields + [last];
    hide ReadMember, MemberText, Name, ValueOf, CleanValue;
    assert all[0] in all;
    if fields == [] {
      assert all[0] == last;
      ReadOneMember(last, "}");
      assert Terminated(fields) + MemberText(last) + "}" == MemberText(last) + "}";
      assert Members(all) == [(Name(last.key), ValueOf(last))];
    } else {
      var rest := fields[1..];
      assert all[1..] == rest + [last];
      forall f | f in rest + [last]
        ensures CleanValue(f)
      {
        assert f in all;
      }
      ReadTerminated(rest, last);
      var tail := Terminated(rest) + MemberText(last) + "}";
      ReadOneMember(fields[0], "," + tail);
      assert ("," + tail)[1..] == tail;
      assert Terminated(fields) + MemberText(last) + "}" == MemberText(fields[0]) + ("," + tail);
      assert Members(all) == [(Name(fields[0].key), ValueOf(fields[0]))] + Members(rest + [last]);
    }
  }

  /** A printed object is read back as it was, with texts as texts and numbers as numbers. */
  lemma JsonRoundTrip(fields: seq<Field>)
    requires fields != [] && JsonClean(fields)
    ensures ReadObject(Json(fields)) == Some(Members(fields))
  {
    hide ReadMembers, MemberText, Name;
    var front, last := fields[..|fields| - 1], fields[|fields| - 1];
    assert fields == front + [last];
    ReadTerminated(front, last);
    assert Json(fields)[1..] == Terminated(front) + MemberText(last) + "}";
  }

  lemma {:induction false} TerminatedAppend(fields: seq<Field>, f: Field)
    ensures Terminated(fields + [f]) == Terminated(fields) + MemberText(f) + ","
  {
    hide MemberText;
    var all := fields + [f];
    if fields == [] {
      assert all[1..] == [];
      assert Terminated(all) == MemberText(f) + "," + "";
    } else {
      assert all[1..] == fields[1..] + [f] && all[0] == fields[0];
      TerminatedAppend(fields[1..], f);
      assert MemberText(fields[0]) + "," + (Terminated(fields[1..]) + MemberText(f) + ",")
          == MemberText(fields[0]) + "," + Terminated(fields[1..]) + MemberText(f) + ",";
    }
  }
}
