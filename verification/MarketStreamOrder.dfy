/** What the order of the members of a market-data message can change. A message may repeat members,
    contradict itself or be malformed; for every message, the outcomes that its orders have are exactly
    those that the members, taken as a set, make possible. */
module MarketStreamOrder {
  import opened Wrappers
  import opened MarketStreamParser

  // --- what a member contributes

  datatype Fact = IdIs(id: int) | StreamIs(symbol: string, stream: Stream)

  /** A member tells a fact; or it stops the dispatcher, always, or if there is an id, or depending on
      the stream; or it is passed over. */
  datatype Role = Tells(fact: Fact) | Stops(outcome: Outcome) | Answers(call: int -> Call) | Delivers | Idle

  function RoleOf(m: Member): Role {
    match FieldOf(m.key)
    case UNDEFINED_INTERNAL => Stops(Fatal)
    case UNKNOWN_INTERNAL => Idle
    case ERROR => Answers((id: int) => OnError(id))
    case RESULT => Answers((id: int) => OnResult(id))
    case ID => if m.value.Int? then Tells(IdIs(m.value.number)) else Stops(Thrown)
    case STREAM =>
      if !m.value.Text? then Stops(Thrown) else
      (match ParseStream(m.value.text)
       case None => Stops(Fatal)
       case Some(p) => Tells(StreamIs(p.0, p.1)))
    case DATA => Delivers
  }

  function Learn(c: Context, f: Fact): Context {
    match f
    case IdIs(id) => c.(id := id)
    case StreamIs(symbol, stream) => c.(symbol := symbol, stream := stream)
  }

  /** What a member makes the dispatcher do in a context. */
  function Trigger(c: Context, m: Member, allowUnknown: bool): Option<Outcome> {
    match RoleOf(m)
    case Tells(_) => None
    case Stops(outcome) => Some(outcome)
    case Answers(call) => if c.id >= 0 then Some(Called(call(c.id))) else None
    case Delivers => Deliver(c, allowUnknown)
    case Idle => None
  }

  lemma ReactIs(c: Context, m: Member, allowUnknown: bool)
    ensures React(c, m, allowUnknown) ==
            match Trigger(c, m, allowUnknown)
            case Some(outcome) => Stop(outcome)
            case None => Continue(if RoleOf(m).Tells? then Learn(c, RoleOf(m).fact) else c)
  {
  }

  // --- what the members allow

  predicate TellsId(m: Member) {
    RoleOf(m).Tells? && RoleOf(m).fact.IdIs?
  }

  predicate TellsStream(m: Member) {
    RoleOf(m).Tells? && RoleOf(m).fact.StreamIs?
  }

  /** An id that one of the members tells, or none if none does. */
  ghost predicate IdChoice(members: seq<Member>, id: int) {
    if exists m :: m in members && TellsId(m) then exists m :: m in members && TellsId(m) && RoleOf(m).fact.id == id
    else id == NOTHING.id
  }

  ghost predicate StreamChoice(members: seq<Member>, symbol: string, stream: Stream) {
    if exists m :: m in members && TellsStream(m)
    then exists m :: m in members && TellsStream(m) && RoleOf(m).fact == StreamIs(symbol, stream)
    else symbol == NOTHING.symbol && stream == NOTHING.stream
  }

  /** A context that the members could lead to: one of the ids and one of the streams that they tell. A
      message that does not contradict itself allows one context only. */
  ghost predicate Choice(members: seq<Member>, c: Context) {
    IdChoice(members, c.id) && StreamChoice(members, c.symbol, c.stream)
  }

  /** In context c the outcome is what some member triggers, or the end of the process if none does. */
  ghost predicate Possible(members: seq<Member>, c: Context, outcome: Outcome, allowUnknown: bool) {
    || (exists m :: m in members && Trigger(c, m, allowUnknown) == Some(outcome))
    || (outcome == Fatal && forall m :: m in members ==> Trigger(c, m, allowUnknown).None?)
  }

  ghost predicate Allows(members: seq<Member>, outcome: Outcome, allowUnknown: bool) {
    exists c :: Choice(members, c) && Possible(members, c, outcome, allowUnknown)
  }

  // --- an order has no outcome but those

  lemma SomeChoice(members: seq<Member>) returns (c: Context)
    ensures Choice(members, c)
  {
    hide RoleOf;
    c := NOTHING;
    if exists m :: m in members && TellsId(m) {
      var m :| m in members && TellsId(m);
      c := c.(id := RoleOf(m).fact.id);
    }
    if exists m :: m in members && TellsStream(m) {
      var m :| m in members && TellsStream(m);
      c := c.(symbol := RoleOf(m).fact.symbol, stream := RoleOf(m).fact.stream);
    }
  }

  /** What the first members allow, if it triggers something, the whole message allows. */
  lemma ChoiceGrows(members: seq<Member>, j: nat, c: Context, m: Member, allowUnknown: bool) returns (d: Context)
    requires j <= |members| && Choice(members[..j], c) && Trigger(c, m, allowUnknown).Some?
    ensures Choice(members, d) && Trigger(d, m, allowUnknown) == Trigger(c, m, allowUnknown)
  {
    hide RoleOf;
    assert forall x :: x in members[..j] ==> x in members;
    d := SomeChoice(members);
    if exists x :: x in members[..j] && TellsId(x) {
      d := d.(id := c.id);
    }
    if exists x :: x in members[..j] && TellsStream(x) {
      d := d.(symbol := c.symbol, stream := c.stream);
    }
  }

  lemma ChoiceLearns(members: seq<Member>, j: nat, c: Context)
    requires j < |members| && Choice(members[..j], c)
    ensures var role := RoleOf(members[j]);
            Choice(members[..j + 1], if role.Tells? then Learn(c, role.fact) else c)
  {
    hide RoleOf;
    assert members[..j + 1] == members[..j] + [members[j]];
    assert members[j] in members[..j + 1];
    assert forall m :: m in members[..j] ==> m in members[..j + 1];
    assert forall m :: m in members[..j + 1] ==> m in members[..j] || m == members[j];
  }

  /** The first pass. */
  lemma {:induction false} FirstPass(members: seq<Member>, j: nat, c: Context, allowUnknown: bool)
    requires j <= |members| && Choice(members[..j], c)
    ensures match Pass(c, members[j..], allowUnknown)
            case Stop(outcome) => Allows(members, outcome, allowUnknown)
            case Continue(d) => Choice(members, d)
    decreases |members| - j
  {
    hide RoleOf, React, Choice;
    if j == |members| {
      assert members[..j] == members && members[j..] == [];
    } else {
      var m := members[j];
      PassStep(c, members, j, allowUnknown);
      ReactIs(c, m, allowUnknown);
      if Trigger(c, m, allowUnknown).Some? {
        var d := ChoiceGrows(members, j, c, m, allowUnknown);
        assert Possible(members, d, Trigger(c, m, allowUnknown).value, allowUnknown);
      } else {
        ChoiceLearns(members, j, c);
        FirstPass(members, j + 1, if RoleOf(m).Tells? then Learn(c, RoleOf(m).fact) else c, allowUnknown);
      }
    }
  }

  lemma ChoiceStays(members: seq<Member>, c: Context, m: Member)
    requires Choice(members, c) && m in members
    ensures Choice(members, if RoleOf(m).Tells? then Learn(c, RoleOf(m).fact) else c)
  {
    hide RoleOf;
  }

  /** From j on, nothing has triggered: so no member stops always, and if there are answers or data
      there are contexts in which those do not stop. */
  ghost predicate Quiet(members: seq<Member>, j: nat, allowUnknown: bool)
    requires j <= |members|
  {
    && (forall m :: m in members[j..] ==> !RoleOf(m).Stops?)
    && ((exists m :: m in members[j..] && RoleOf(m).Answers?) ==> exists c :: Choice(members, c) && c.id < 0)
    && ((exists m :: m in members[j..] && RoleOf(m).Delivers?) ==> exists c :: Choice(members, c) && Deliver(c, allowUnknown).None?)
  }

  lemma QuietStep(members: seq<Member>, j: nat, c: Context, allowUnknown: bool)
    requires j < |members| && Choice(members, c) && Trigger(c, members[j], allowUnknown).None? && Quiet(members, j + 1, allowUnknown)
    ensures Quiet(members, j, allowUnknown)
  {
    hide RoleOf, Choice, Deliver;
    assert members[j..] == [members[j]] + members[j + 1..];
  }

  /** The second pass starts from a context that the members allow. */
  lemma {:induction false} SecondPass(members: seq<Member>, j: nat, c: Context, allowUnknown: bool)
    requires j <= |members| && Choice(members, c)
    ensures match Pass(c, members[j..], allowUnknown)
            case Stop(outcome) => Allows(members, outcome, allowUnknown)
            case Continue(d) => Quiet(members, j, allowUnknown)
    decreases |members| - j
  {
    hide RoleOf, React, Choice, Quiet;
    if j == |members| {
      assert members[j..] == [];
      assert Quiet(members, j, allowUnknown) by {
        QuietEnd(members, allowUnknown);
      }
    } else {
      var m := members[j];
      PassStep(c, members, j, allowUnknown);
      ReactIs(c, m, allowUnknown);
      if Trigger(c, m, allowUnknown).Some? {
        assert Possible(members, c, Trigger(c, m, allowUnknown).value, allowUnknown);
      } else {
        ChoiceStays(members, c, m);
        SecondPass(members, j + 1, if RoleOf(m).Tells? then Learn(c, RoleOf(m).fact) else c, allowUnknown);
        if Quiet(members, j + 1, allowUnknown) {
          QuietStep(members, j, c, allowUnknown);
        }
      }
    }
  }

  lemma QuietEnd(members: seq<Member>, allowUnknown: bool)
    ensures Quiet(members, |members|, allowUnknown)
  {
  }

  /** If nothing stops, there is one context in which nothing does. */
  lemma QuietAllowsFatal(members: seq<Member>, allowUnknown: bool)
    requires Quiet(members, 0, allowUnknown)
    ensures Allows(members, Fatal, allowUnknown)
  {
    hide RoleOf, IdChoice, StreamChoice, Deliver;
    assert members[0..] == members;
    var c := SomeChoice(members);
    if exists m :: m in members && RoleOf(m).Answers? {
      var d :| Choice(members, d) && d.id < 0;
      c := c.(id := d.id);
    }
    if exists m :: m in members && RoleOf(m).Delivers? {
      var d :| Choice(members, d) && Deliver(d, allowUnknown).None?;
      DeliverByStream(d, c.(symbol := d.symbol, stream := d.stream), allowUnknown);
      c := c.(symbol := d.symbol, stream := d.stream);
    }
    assert forall m :: m in members ==> Trigger(c, m, allowUnknown).None?;
    assert Possible(members, c, Fatal, allowUnknown);
  }

  lemma DeliverByStream(c: Context, d: Context, allowUnknown: bool)
    requires c.symbol == d.symbol && c.stream == d.stream
    ensures Deliver(c, allowUnknown) == Deliver(d, allowUnknown)
  {
  }

  /** The outcome of any message is one that its members allow; two passes always suffice. */
  lemma RouteByMembers(members: seq<Member>, allowUnknown: bool)
    ensures Allows(members, Route(members, allowUnknown), allowUnknown)
  {
    hide RoleOf, React, Allows, Quiet;
    assert Choice([], NOTHING) by {
      NothingYet();
    }
    hide Choice;
    assert members[..0] == [] && members[0..] == members;
    FirstPass(members, 0, NOTHING, allowUnknown);
    match Pass(NOTHING, members, allowUnknown)
    case Stop(_) =>
    case Continue(c) =>
      SecondPass(members, 0, c, allowUnknown);
      if Pass(c, members, allowUnknown).Continue? {
        QuietAllowsFatal(members, allowUnknown);
      }
  }

  lemma NothingYet()
    ensures Choice([], NOTHING)
  {
  }

  // --- each of those is the outcome of some order

  function Filter(members: seq<Member>, telling: bool): seq<Member> {
    if members == [] then []
    else if RoleOf(members[0]).Tells? == telling then [members[0]] + Filter(members[1..], telling)
    else Filter(members[1..], telling)
  }

  lemma {:induction false} FilterHas(members: seq<Member>, telling: bool)
    ensures forall m :: m in Filter(members, telling) <==> m in members && RoleOf(m).Tells? == telling
  {
    hide RoleOf;
    if members != [] {
      FilterHas(members[1..], telling);
      assert members == [members[0]] + members[1..];
    }
  }

  lemma {:induction false} FilterSplits(members: seq<Member>)
    ensures multiset(Filter(members, true)) + multiset(Filter(members, false)) == multiset(members)
  {
    hide RoleOf;
    if members != [] {
      FilterSplits(members[1..]);
      assert members == [members[0]] + members[1..];
    }
  }

  lemma {:induction false} PassAppend(c: Context, a: seq<Member>, b: seq<Member>, allowUnknown: bool)
    ensures Pass(c, a + b, allowUnknown) ==
            match Pass(c, a, allowUnknown)
            case Continue(c') => Pass(c', b, allowUnknown)
            case Stop(outcome) => Stop(outcome)
    decreases |a|
  {
    hide React;
    if a == [] {
      assert a + b == b;
    } else {
      assert (a + b)[0] == a[0] && (a + b)[1..] == a[1..] + b;
      match React(c, a[0], allowUnknown)
      case Continue(c') => PassAppend(c', a[1..], b, allowUnknown);
      case Stop(_) =>
    }
  }

  lemma PassOne(c: Context, m: Member, allowUnknown: bool)
    ensures Pass(c, [m], allowUnknown) ==
            match Trigger(c, m, allowUnknown)
            case Some(outcome) => Stop(outcome)
            case None => Continue(if RoleOf(m).Tells? then Learn(c, RoleOf(m).fact) else c)
  {
    ReactIs(c, m, allowUnknown);
    hide React, RoleOf;
    assert [m][1..] == [];
  }

  /** Members that only tell facts are all gone through; what none of them tells stays as it was. */
  lemma {:induction false} PassTelling(c: Context, members: seq<Member>, allowUnknown: bool)
    requires forall m :: m in members ==> RoleOf(m).Tells?
    ensures var r := Pass(c, members, allowUnknown);
            && r.Continue?
            && ((forall m :: m in members ==> !TellsId(m)) ==> r.context.id == c.id)
            && ((forall m :: m in members ==> !TellsStream(m)) ==> r.context.symbol == c.symbol && r.context.stream == c.stream)
    decreases |members|
  {
    hide RoleOf, React;
    if members != [] {
      var m, rest := members[0], members[1..];
      assert members == [m] + rest;
      assert m in members;
      ReactIs(c, m, allowUnknown);
      PassTelling(Learn(c, RoleOf(m).fact), rest, allowUnknown);
    }
  }

  lemma MoveToBack(members: seq<Member>, m: Member) returns (front: seq<Member>)
    requires m in members
    ensures multiset(front + [m]) == multiset(members)
    ensures forall x :: x in front ==> x in members
  {
    var i :| 0 <= i < |members| && members[i] == m;
    front := members[..i] + members[i + 1..];
    assert members == members[..i] + [m] + members[i + 1..];
  }

  lemma SameMembers(a: seq<Member>, b: seq<Member>)
    requires multiset(a) == multiset(b)
    ensures forall m :: m in a <==> m in b
  {
    forall m
      ensures m in a <==> m in b
    {
      assert m in multiset(a) <==> m in a;
      assert m in multiset(b) <==> m in b;
    }
  }

  /** The members tell an id, or p has the one of c. */
  ghost predicate IdReady(members: seq<Member>, p: Context, c: Context) {
    (exists m :: m in members && TellsId(m)) || p.id == c.id
  }

  ghost predicate StreamReady(members: seq<Member>, p: Context, c: Context) {
    (exists m :: m in members && TellsStream(m)) || (p.symbol == c.symbol && p.stream == c.stream)
  }

  ghost predicate EndsWithId(p: Context, members: seq<Member>, c: Context, allowUnknown: bool) {
    Pass(p, members, allowUnknown).Continue? && Pass(p, members, allowUnknown).context.id == c.id
  }

  ghost predicate EndsWith(p: Context, members: seq<Member>, c: Context, allowUnknown: bool) {
    Pass(p, members, allowUnknown) == Continue(c)
  }

  /** Members that tell facts can be put so that the id of c is the last of the ids. */
  lemma ArrangeId(members: seq<Member>, c: Context) returns (order: seq<Member>)
    requires (forall m :: m in members ==> RoleOf(m).Tells?) && IdChoice(members, c.id)
    ensures multiset(order) == multiset(members)
    ensures forall p, allowUnknown :: IdReady(members, p, c) ==> EndsWithId(p, order, c, allowUnknown)
  {
    hide RoleOf, React;
    if exists m :: m in members && TellsId(m) {
      var m :| m in members && TellsId(m) && RoleOf(m).fact.id == c.id;
      var front := MoveToBack(members, m);
      order := front + [m];
      forall p, allowUnknown
        ensures EndsWithId(p, order, c, allowUnknown)
      {
        PassTelling(p, front, allowUnknown);
        PassAppend(p, front, [m], allowUnknown);
        PassOne(Pass(p, front, allowUnknown).context, m, allowUnknown);
      }
    } else {
      order := members;
      forall p, allowUnknown | IdReady(members, p, c)
        ensures EndsWithId(p, order, c, allowUnknown)
      {
        PassTelling(p, members, allowUnknown);
      }
    }
  }

  /** And so that they lead to all of c. */
  lemma Arrange(members: seq<Member>, c: Context) returns (order: seq<Member>)
    requires (forall m :: m in members ==> RoleOf(m).Tells?) && Choice(members, c)
    ensures multiset(order) == multiset(members)
    ensures forall p, allowUnknown :: IdReady(members, p, c) && StreamReady(members, p, c) ==> EndsWith(p, order, c, allowUnknown)
  {
    hide RoleOf, React;
    if exists m :: m in members && TellsStream(m) {
      var m :| m in members && TellsStream(m) && RoleOf(m).fact == StreamIs(c.symbol, c.stream);
      var front := MoveToBack(members, m);
      SameMembers(front + [m], members);
      assert forall x :: x in members && TellsId(x) ==> x in front;
      var first := ArrangeId(front, c);
      order := first + [m];
      assert multiset(order) == multiset(front + [m]);
      forall p, allowUnknown | IdReady(members, p, c)
        ensures EndsWith(p, order, c, allowUnknown)
      {
        assert IdReady(front, p, c);
        assert EndsWithId(p, first, c, allowUnknown);
        PassAppend(p, first, [m], allowUnknown);
        PassOne(Pass(p, first, allowUnknown).context, m, allowUnknown);
      }
    } else {
      order := ArrangeId(members, c);
      SameMembers(order, members);
      forall p, allowUnknown | IdReady(members, p, c) && StreamReady(members, p, c)
        ensures EndsWith(p, order, c, allowUnknown)
      {
        assert EndsWithId(p, order, c, allowUnknown);
        PassTelling(p, order, allowUnknown);
      }
    }
  }

  /** Members that tell nothing and trigger nothing change nothing. */
  lemma {:induction false} PassIdle(c: Context, members: seq<Member>, allowUnknown: bool)
    requires forall m :: m in members ==> !RoleOf(m).Tells? && Trigger(c, m, allowUnknown).None?
    ensures Pass(c, members, allowUnknown) == Continue(c)
    decreases |members|
  {
    hide RoleOf, React;
    if members != [] {
      assert members == [members[0]] + members[1..];
      assert members[0] in members;
      ReactIs(c, members[0], allowUnknown);
      PassIdle(c, members[1..], allowUnknown);
    }
  }

  /** The members that tell facts, put so that they lead to c. */
  lemma ArrangeAll(members: seq<Member>, c: Context) returns (head: seq<Member>)
    requires Choice(members, c)
    ensures multiset(head) == multiset(Filter(members, true))
    ensures forall allowUnknown :: EndsWith(NOTHING, head, c, allowUnknown) && EndsWith(c, head, c, allowUnknown)
  {
    hide RoleOf, Filter, EndsWith;
    FilterHas(members, true);
    var telling := Filter(members, true);
    assert Choice(telling, c);
    head := Arrange(telling, c);
    assert IdReady(telling, NOTHING, c) && StreamReady(telling, NOTHING, c);
    assert IdReady(telling, c, c) && StreamReady(telling, c, c);
  }

  /** A member that triggers in a context that the members allow can be made the one that decides. */
  lemma MakeDecisive(members: seq<Member>, c: Context, m: Member, allowUnknown: bool) returns (order: seq<Member>)
    requires Choice(members, c) && m in members && Trigger(c, m, allowUnknown).Some?
    ensures multiset(order) == multiset(members)
    ensures Some(Route(order, allowUnknown)) == Trigger(c, m, allowUnknown)
  {
    var head := ArrangeAll(members, c);
    var tail := Filter(members, false);
    FilterSplits(members);
    FilterHas(members, false);
    assert !RoleOf(m).Tells?;
    hide RoleOf, React, Choice, Filter, Trigger;
    var rest := MoveToBack(tail, m);
    order := head + ([m] + rest);
    calc {
      multiset(order);
      multiset(head) + multiset([m] + rest);
      { assert multiset([m] + rest) == multiset(rest + [m]); }
      multiset(members);
    }
    assert EndsWith(NOTHING, head, c, allowUnknown);
    PassAppend(NOTHING, head, [m] + rest, allowUnknown);
    PassAppend(c, [m], rest, allowUnknown);
    PassOne(c, m, allowUnknown);
  }

  /** If nothing triggers in such a context, some order ends the process. */
  lemma MakeFatal(members: seq<Member>, c: Context, allowUnknown: bool) returns (order: seq<Member>)
    requires Choice(members, c) && forall m :: m in members ==> Trigger(c, m, allowUnknown).None?
    ensures multiset(order) == multiset(members)
    ensures Route(order, allowUnknown) == Fatal
  {
    var head := ArrangeAll(members, c);
    var tail := Filter(members, false);
    FilterSplits(members);
    FilterHas(members, false);
    hide RoleOf, React, Choice, Filter, Trigger;
    order := head + tail;
    assert EndsWith(NOTHING, head, c, allowUnknown) && EndsWith(c, head, c, allowUnknown);
    PassIdle(c, tail, allowUnknown);
    PassAppend(NOTHING, head, tail, allowUnknown);
    PassAppend(c, head, tail, allowUnknown);
  }

  // --- main results

  lemma {:induction false} ChoiceBySet(a: seq<Member>, b: seq<Member>, c: Context)
    requires (forall m :: m in a <==> m in b) && Choice(a, c)
    ensures Choice(b, c)
  {
    hide RoleOf;
  }

  lemma AllowsBySet(a: seq<Member>, b: seq<Member>, outcome: Outcome, allowUnknown: bool)
    requires (forall m :: m in a <==> m in b) && Allows(a, outcome, allowUnknown)
    ensures Allows(b, outcome, allowUnknown)
  {
    hide RoleOf, Choice, Trigger;
    var c :| Choice(a, c) && Possible(a, c, outcome, allowUnknown);
    ChoiceBySet(a, b, c);
    assert Possible(b, c, outcome, allowUnknown);
  }

  ghost predicate SomeOrder(members: seq<Member>, outcome: Outcome, allowUnknown: bool) {
    exists order :: multiset(order) == multiset(members) && Route(order, allowUnknown) == outcome
  }

  /** The outcomes that the orders of a message have are exactly those that its members allow. */
  lemma OutcomesOfOrders(members: seq<Member>, outcome: Outcome, allowUnknown: bool)
    ensures SomeOrder(members, outcome, allowUnknown) <==> Allows(members, outcome, allowUnknown)
  {
    hide RoleOf, Choice, Trigger, Route;
    if SomeOrder(members, outcome, allowUnknown) {
      var order :| multiset(order) == multiset(members) && Route(order, allowUnknown) == outcome;
      RouteByMembers(order, allowUnknown);
      SameMembers(order, members);
      AllowsBySet(order, members, outcome, allowUnknown);
    }
    if Allows(members, outcome, allowUnknown) {
      var c :| Choice(members, c) && Possible(members, c, outcome, allowUnknown);
      if m :| m in members && Trigger(c, m, allowUnknown) == Some(outcome) {
        var order := MakeDecisive(members, c, m, allowUnknown);
      } else {
        var order := MakeFatal(members, c, allowUnknown);
      }
    }
  }

  /** The members allow one outcome only. */
  ghost predicate Unambiguous(members: seq<Member>, allowUnknown: bool) {
    forall x, y :: Allows(members, x, allowUnknown) && Allows(members, y, allowUnknown) ==> x == y
  }

  /** The exact condition, for every message, under which the order of its members does not matter. */
  lemma OrderCondition(members: seq<Member>, allowUnknown: bool)
    ensures Unambiguous(members, allowUnknown) <==>
            forall order :: multiset(order) == multiset(members) ==> Route(order, allowUnknown) == Route(members, allowUnknown)
  {
    hide Allows, Route;
    RouteByMembers(members, allowUnknown);
    if Unambiguous(members, allowUnknown) {
      forall order | multiset(order) == multiset(members)
        ensures Route(order, allowUnknown) == Route(members, allowUnknown)
      {
        assert SomeOrder(members, Route(order, allowUnknown), allowUnknown);
        OutcomesOfOrders(members, Route(order, allowUnknown), allowUnknown);
      }
    } else {
      var x, y :| Allows(members, x, allowUnknown) && Allows(members, y, allowUnknown) && x != y;
      OutcomesOfOrders(members, x, allowUnknown);
      OutcomesOfOrders(members, y, allowUnknown);
    }
  }

  /** If the order does not matter, repeating members does not matter either. */
  lemma OrderDoesNotMatter(members: seq<Member>, others: seq<Member>, allowUnknown: bool)
    requires Unambiguous(members, allowUnknown) && forall m :: m in members <==> m in others
    ensures Route(members, allowUnknown) == Route(others, allowUnknown)
  {
    hide Allows, Route;
    RouteByMembers(members, allowUnknown);
    RouteByMembers(others, allowUnknown);
    AllowsBySet(others, members, Route(others, allowUnknown), allowUnknown);
  }

  // --- the messages of the exchange

  /** The members with one of the known keys are exactly those in `known`; others may be in between. */
  ghost predicate Consists(members: seq<Member>, known: set<Member>) {
    forall m :: m in known <==> m in members && FieldOf(m.key) != Field.UNKNOWN_INTERNAL
  }

  lemma KnownFields()
    ensures FieldOf("id") == ID && FieldOf("result") == RESULT && FieldOf("error") == ERROR
    ensures FieldOf("stream") == STREAM && FieldOf("data") == DATA
  {
  }

  lemma Roles(id: int, name: string, value: Value)
    ensures RoleOf(Member("id", Int(id))) == Tells(IdIs(id))
    ensures RoleOf(Member("result", value)).Answers? && RoleOf(Member("result", value)).call(id) == OnResult(id)
    ensures RoleOf(Member("error", value)).Answers? && RoleOf(Member("error", value)).call(id) == OnError(id)
    ensures RoleOf(Member("data", value)) == Delivers
    ensures ParseStream(name).Some? ==>
              RoleOf(Member("stream", Text(name))) == Tells(StreamIs(ParseStream(name).value.0, ParseStream(name).value.1))
  {
    KnownFields();
    hide FieldOf, ParseStream;
  }

  lemma OthersIdle(members: seq<Member>, known: set<Member>)
    requires Consists(members, known)
    ensures forall m :: m in members && m !in known ==> RoleOf(m) == Idle
    ensures forall m :: m in known ==> m in members
  {
    hide FieldOf, ParseStream;
  }

  /** One member tells a fact, one makes use of it, and all others are idle. */
  lemma OneFact(members: seq<Member>, teller: Member, user: Member, allowUnknown: bool)
    requires teller in members && RoleOf(teller).Tells? && user in members && !RoleOf(user).Tells?
    requires forall m :: m in members && m != teller && m != user ==> RoleOf(m) == Idle
    ensures var triggered := Trigger(Learn(NOTHING, RoleOf(teller).fact), user, allowUnknown);
            Route(members, allowUnknown) == if triggered.Some? then triggered.value else Fatal
  {
    RouteByMembers(members, allowUnknown);
    hide RoleOf, Route, Deliver;
    var d :| Choice(members, d) && Possible(members, d, Route(members, allowUnknown), allowUnknown);
    assert d == Learn(NOTHING, RoleOf(teller).fact) by {
      if TellsId(teller) {
        assert forall m :: m in members ==> !TellsStream(m);
      } else {
        assert TellsStream(teller);
        assert forall m :: m in members ==> !TellsId(m);
      }
    }
  }

  lemma AnswerForm(members: seq<Member>, id: int, answer: Member, call: Call, allowUnknown: bool)
    requires Consists(members, {Member("id", Int(id)), answer})
    requires id >= 0 && RoleOf(answer).Answers? && RoleOf(answer).call(id) == call
    ensures Route(members, allowUnknown) == Called(call)
  {
    Roles(id, "", Other);
    OthersIdle(members, {Member("id", Int(id)), answer});
    hide RoleOf, Route, Consists;
    OneFact(members, Member("id", Int(id)), answer, allowUnknown);
  }

  lemma DataForm(members: seq<Member>, name: string, value: Value, allowUnknown: bool)
    requires ParseStream(name).Some? && Consists(members, {Member("stream", Text(name)), Member("data", value)})
    ensures var c := Context(NOTHING.id, ParseStream(name).value.0, ParseStream(name).value.1);
            Route(members, allowUnknown) == if Deliver(c, allowUnknown).Some? then Deliver(c, allowUnknown).value else Fatal
  {
    Roles(0, name, value);
    OthersIdle(members, {Member("stream", Text(name)), Member("data", value)});
    hide RoleOf, Route, Consists, ParseStream, Deliver;
    OneFact(members, Member("stream", Text(name)), Member("data", value), allowUnknown);
  }

  /** The messages the exchange sends: an answer to a request, or data of a stream, with the members in
      any order. */
  lemma CommonForms(members: seq<Member>, id: int, value: Value, name: string, allowUnknown: bool)
    ensures id >= 0 && Consists(members, {Member("id", Int(id)), Member("result", value)}) ==>
              Route(members, allowUnknown) == Called(OnResult(id))
    ensures id >= 0 && Consists(members, {Member("id", Int(id)), Member("error", value)}) ==>
              Route(members, allowUnknown) == Called(OnError(id))
    ensures ParseStream(name).Some? && Consists(members, {Member("stream", Text(name)), Member("data", value)}) ==>
              var c := Context(NOTHING.id, ParseStream(name).value.0, ParseStream(name).value.1);
              Route(members, allowUnknown) == if Deliver(c, allowUnknown).Some? then Deliver(c, allowUnknown).value else Fatal
  {
    Roles(id, name, value);
    hide RoleOf, Route, Consists, ParseStream, Deliver;
    if id >= 0 && Consists(members, {Member("id", Int(id)), Member("result", value)}) {
      AnswerForm(members, id, Member("result", value), OnResult(id), allowUnknown);
    }
    if id >= 0 && Consists(members, {Member("id", Int(id)), Member("error", value)}) {
      AnswerForm(members, id, Member("error", value), OnError(id), allowUnknown);
    }
    if ParseStream(name).Some? && Consists(members, {Member("stream", Text(name)), Member("data", value)}) {
      DataForm(members, name, value, allowUnknown);
    }
  }

  /** A message whose order matters although it does not contradict itself: the id is not a number. */
  lemma TextId(name: string, value: Value, id: string, allowUnknown: bool)
    requires ParseStream(name).Some?
    ensures var c := Context(NOTHING.id, ParseStream(name).value.0, ParseStream(name).value.1);
            var members := [Member("stream", Text(name)), Member("data", value), Member("id", Text(id))];
            && SomeOrder(members, Thrown, allowUnknown)
            && (Deliver(c, allowUnknown).Some? ==> SomeOrder(members, Deliver(c, allowUnknown).value, allowUnknown))
  {
    Roles(0, name, value);
    KnownFields();
    assert RoleOf(Member("id", Text(id))) == Stops(Thrown) by {
      hide FieldOf;
    }
    hide RoleOf, FieldOf, ParseStream, Deliver, Route;
    var stream, data, text := Member("stream", Text(name)), Member("data", value), Member("id", Text(id));
    var members := [stream, data, text];
    var c := Context(NOTHING.id, ParseStream(name).value.0, ParseStream(name).value.1);
    assert stream in members && data in members && text in members;
    assert !TellsId(stream) && !TellsId(data) && !TellsId(text);
    assert Choice(members, c);
    assert Trigger(c, text, allowUnknown) == Some(Thrown);
    OutcomesOfOrders(members, Thrown, allowUnknown);
    if Deliver(c, allowUnknown).Some? {
      assert Trigger(c, data, allowUnknown) == Deliver(c, allowUnknown);
      OutcomesOfOrders(members, Deliver(c, allowUnknown).value, allowUnknown);
    }
  }
}
