/** One order from the repository's tests: it pins down names, quotes and numbers. */
module EncoderSample {
  import opened Wrappers
  import opened Ascii
  import opened Accounts
  import opened EnumMap
  import opened Fields
  import opened Encoder
  import opened EncoderLaws

  const ORDER := CreateOrder(
    "BTC", EnumMap.Side.BUY, OrderType.LIMIT, EnumMap.TimeInForce.GTC, false, MarginMode.UNDEFINED, "1", Some("1"), None)

  const SAMPLE := PlaceOrderJson(ORDER, "oid:1234", None, 5000, 0)

  const ID := Field(NewClientOrderId, "oid:1234")
  const PRICE := Field(Price, "1")
  const QUANTITY := Field(Quantity, "1")
  const WINDOW := Field(RecvWindow, "5000")
  const BUYS := Field(Key.Side, "BUY")
  const SYMBOL := Field(Symbol, "BTC")
  const TIME := Field(Key.TimeInForce, "GTC")
  const STAMP := Field(Timestamp, "0")
  const KIND := Field(Type, "LIMIT")

  lemma Numbers()
    ensures Whole(5000) == "5000" && Whole(0) == "0"
  {
    assert Decimal(5) == "5" && Decimal(50) == "50" && Decimal(500) == "500";
  }

  lemma Values()
    ensures SideText(MapSide(ORDER.side)) == "BUY" && TypeText(MapOrderType(ORDER)) == "LIMIT"
    ensures Defined(MapTimeInForce(ORDER)) == Some("GTC")
  {
  }

  /** A member with its comma, in front of what follows. */
  function Tail(fields: seq<Field>, last: Field): string {
    Terminated(fields) + MemberText(last) + "}"
  }

  lemma TailCons(f: Field, rest: seq<Field>, last: Field)
    ensures Tail([f] + rest, last) == (MemberText(f) + ",") + Tail(rest, last)
  {
    hide MemberText;
    assert ([f] + rest)[1..] == rest;
  }

  lemma EarlyMembers()
    ensures MemberText(ID) + "," == "\"newClientOrderId\":\"oid:1234\","
    ensures MemberText(PRICE) + "," == "\"price\":\"1\","
    ensures MemberText(QUANTITY) + "," == "\"quantity\":\"1\","
  {
  }

  lemma MiddleMembers()
    ensures MemberText(WINDOW) + "," == "\"recvWindow\":5000,"
    ensures MemberText(BUYS) + "," == "\"side\":\"BUY\","
    ensures MemberText(SYMBOL) + "," == "\"symbol\":\"BTC\","
  {
  }

  lemma LateMembers()
    ensures MemberText(TIME) + "," == "\"timeInForce\":\"GTC\","
    ensures MemberText(STAMP) + "," == "\"timestamp\":0,"
    ensures MemberText(KIND) + "}" == "\"type\":\"LIMIT\"}"
  {
  }

  const FRONT := [ID] + ([PRICE] + ([QUANTITY] + ([WINDOW] + ([BUYS] + ([SYMBOL] + ([TIME] + [STAMP]))))))

  lemma Front()
    ensures FieldsOf(SAMPLE) == FRONT + [KIND]
  {
    Numbers();
    Values();
    hide Whole, Defined, MapTimeInForce, MapOrderType, MapSide, SideText, TypeText, Listed;
    var c := ContentOf(SAMPLE);
    assert c[..0] == [];
    Appended(c, 0);
    Appended(c, 1);
    Appended(c, 2);
    Appended(c, 3);
    Appended(c, 4);
    Appended(c, 5);
    Appended(c, 6);
    Appended(c, 7);
    Appended(c, 8);
    Appended(c, 9);
    Appended(c, 10);
    assert c[..11] == c;
    assert Listed(c[..0]) == [] by {
      Nothing();
    }
  }

  lemma Nothing()
    ensures Listed([]) == []
  {
  }

  lemma Appended(c: Content, i: nat)
    requires i < |c|
    ensures Listed(c[..i + 1]) == Listed(c[..i]) + Optional(c[i].0, c[i].1)
  {
    assert c[..i + 1] == c[..i] + [c[i]];
    ListedAppend(c[..i], c[i].0, c[i].1);
  }

  const TEXT :=
    "{" + ("\"newClientOrderId\":\"oid:1234\"," + ("\"price\":\"1\"," + ("\"quantity\":\"1\"," + ("\"recvWindow\":5000,"
    + ("\"side\":\"BUY\"," + ("\"symbol\":\"BTC\"," + ("\"timeInForce\":\"GTC\"," + ("\"timestamp\":0," + "\"type\":\"LIMIT\"}"))))))))

  lemma Tails()
    ensures "{" + Tail(FRONT, KIND) == TEXT
  {
    EarlyMembers();
    MiddleMembers();
    LateMembers();
    LastTail();
    hide MemberText, Tail;
    var f7 := [TIME] + [STAMP];
    var f6 := [SYMBOL] + f7;
    var f5 := [BUYS] + f6;
    var f4 := [WINDOW] + f5;
    var f3 := [QUANTITY] + f4;
    var f2 := [PRICE] + f3;
    TailCons(ID, f2, KIND);
    TailCons(PRICE, f3, KIND);
    TailCons(QUANTITY, f4, KIND);
    TailCons(WINDOW, f5, KIND);
    TailCons(BUYS, f6, KIND);
    TailCons(SYMBOL, f7, KIND);
    TailCons(TIME, [STAMP], KIND);
  }

  /** This text, and no other, is what the order is printed as. */
  lemma Printed(text: string)
    ensures Prints(text, SAMPLE) <==> text == TEXT
  {
    Front();
    Tails();
    Wrapped(FRONT, KIND);
    hide Json, Tail, Listed, ContentOf;
  }

  lemma Wrapped(front: seq<Field>, last: Field)
    ensures front + [last] != [] && Json(front + [last]) == "{" + Tail(front, last)
  {
    assert (front + [last])[..|front|] == front;
    hide MemberText, Terminated;
    assert "{" + Terminated(front) + MemberText(last) + "}" == "{" + (Terminated(front) + MemberText(last) + "}");
  }

  lemma LastTail()
    ensures Tail([STAMP], KIND) == (MemberText(STAMP) + ",") + (MemberText(KIND) + "}")
  {
    TailCons(STAMP, [], KIND);
    hide MemberText;
    assert [STAMP] + [] == [STAMP];
    assert Tail([], KIND) == MemberText(KIND) + "}";
  }
}
