/** Routing of market-data messages. The members of a JSON object come in any order, so the dispatcher
    goes over them twice: what decides about a member may stand behind it. */
module MarketStreamParser {
  import opened Wrappers
  import opened Ascii

  datatype Stream =
    | UNDEFINED_INTERNAL
    | UNKNOWN_INTERNAL
    | SERVER_SHUTDOWN
    | AGG_TRADE
    | TRADE
    | MINI_TICKER
    | BOOK_TICKER
    | DEPTH5
    | DEPTH10
    | DEPTH20
    | DEPTH

  function StreamOf(name: string): Stream {
    match name
    case "" => Stream.UNDEFINED_INTERNAL
    case "!serverShutdown" => SERVER_SHUTDOWN
    case "aggTrade" => AGG_TRADE
    case "trade" => TRADE
    case "miniTicker" => MINI_TICKER
    case "bookTicker" => BOOK_TICKER
    case "depth5" => DEPTH5
    case "depth10" => DEPTH10
    case "depth20" => DEPTH20
    case "depth" => DEPTH
    case _ => Stream.UNKNOWN_INTERNAL
  }

  datatype Field = UNDEFINED_INTERNAL | UNKNOWN_INTERNAL | ERROR | RESULT | ID | STREAM | DATA

  function FieldOf(key: string): Field {
    match key
    case "" => Field.UNDEFINED_INTERNAL
    case "error" => ERROR
    case "result" => RESULT
    case "id" => ID
    case "stream" => STREAM
    case "data" => DATA
    case _ => Field.UNKNOWN_INTERNAL
  }

  /** A parsed JSON value, as far as the dispatcher looks into it. */
  datatype Value = Int(number: int) | Text(text: string) | Other
  datatype Member = Member(key: string, value: Value)

  datatype Call =
    | OnError(id: int)
    | OnResult(id: int)
    | OnServerShutdown
    | OnAggTrade
    | OnTrade
    | OnMiniTicker
    | OnBookTicker
    | OnDepth(symbol: string)
    | OnDepthUpdate

  datatype Outcome = Called(call: Call) | Skipped | Fatal | Thrown

  /** `<symbol>@<stream>[@<freq>]`, or the name of a stream without a symbol. None ends the process. */
  function ParseStream(fullName: string): Option<(string, Stream)> {
    var idx0 := IndexOf(fullName, '@');
    if idx0 < |fullName| then
      var rest := fullName[idx0 + 1..];
      Some((Upper(fullName[..idx0]), StreamOf(rest[..IndexOf(rest, '@')])))
    else if fullName != "" && fullName[0] == '!' then Some(("", StreamOf(fullName)))
    else None
  }

  /** What has been found so far. */
  datatype Context = Context(id: int, symbol: string, stream: Stream)

  const NOTHING := Context(-1, "", Stream.UNDEFINED_INTERNAL)

  /** The handler for the data of a stream; None if the dispatcher goes on. */
  function Deliver(c: Context, allowUnknown: bool): Option<Outcome> {
    match c.stream
    case UNDEFINED_INTERNAL => None
    case UNKNOWN_INTERNAL => if allowUnknown then Some(Skipped) else None
    case SERVER_SHUTDOWN => Some(Called(OnServerShutdown))
    case AGG_TRADE => Some(Called(OnAggTrade))
    case TRADE => Some(Called(OnTrade))
    case MINI_TICKER => Some(Called(OnMiniTicker))
    case BOOK_TICKER => Some(Called(OnBookTicker))
    case DEPTH => Some(Called(OnDepthUpdate))
    case _ => Some(Called(OnDepth(c.symbol)))
  }

  datatype Reaction = Continue(context: Context) | Stop(outcome: Outcome)

  function React(c: Context, m: Member, allowUnknown: bool): Reaction {
    match FieldOf(m.key)
    case UNDEFINED_INTERNAL => Stop(Fatal)
    case UNKNOWN_INTERNAL => Continue(c)
    case ERROR => if c.id >= 0 then Stop(Called(OnError(c.id))) else Continue(c)
    case RESULT => if c.id >= 0 then Stop(Called(OnResult(c.id))) else Continue(c)
    case ID => if m.value.Int? then Continue(c.(id := m.value.number)) else Stop(Thrown)
    case STREAM =>
      if !m.value.Text? then Stop(Thrown) else
      (match ParseStream(m.value.text)
       case None => Stop(Fatal)
       case Some(p) => Continue(c.(symbol := p.0, stream := p.1)))
    case DATA =>
      match Deliver(c, allowUnknown)
      case Some(outcome) => Stop(outcome)
      case None => Continue(c)
  }

  function Pass(c: Context, members: seq<Member>, allowUnknown: bool): Reaction
    decreases |members|
  {
    if members == [] then Continue(c)
    else match React(c, members[0], allowUnknown)
      case Continue(c') => Pass(c', members[1..], allowUnknown)
      case Stop(outcome) => Stop(outcome)
  }

  function Route(members: seq<Member>, allowUnknown: bool): Outcome {
    match Pass(NOTHING, members, allowUnknown)
    case Stop(outcome) => outcome
    case Continue(c) =>
      match Pass(c, members, allowUnknown)
      case Stop(outcome) => outcome
      case Continue(_) => Fatal
  }

  lemma PassStep(c: Context, members: seq<Member>, j: nat, allowUnknown: bool)
    requires j < |members|
    ensures Pass(c, members[j..], allowUnknown) ==
            match React(c, members[j], allowUnknown)
            case Continue(c') => Pass(c', members[j + 1..], allowUnknown)
            case Stop(outcome) => Stop(outcome)
  {
    assert members[j..][1..] == members[j + 1..];
  }

  method Dispatch(members: seq<Member>, allowUnknown: bool) returns (outcome: Outcome)
    ensures outcome == Route(members, allowUnknown)
  {
    var id, symbol, stream := -1, "", Stream.UNDEFINED_INTERNAL;
    for i := 0 to 2
      invariant i == 0 ==> Context(id, symbol, stream) == NOTHING
      invariant i == 1 ==> Pass(NOTHING, members, allowUnknown) == Continue(Context(id, symbol, stream))
      invariant i == 2 ==> Route(members, allowUnknown) == Fatal
    {
      ghost var start := Context(id, symbol, stream);
      for j := 0 to |members|
        invariant Pass(start, members, allowUnknown) == Pass(Context(id, symbol, stream), members[j..], allowUnknown)
      {
        PassStep(Context(id, symbol, stream), members, j, allowUnknown);
        var value := members[j].value;
        match FieldOf(members[j].key) {
          case UNDEFINED_INTERNAL => return Fatal;
          case UNKNOWN_INTERNAL =>
          case ERROR =>
            if id >= 0 {
              return Called(OnError(id));
            }
          case RESULT =>
            if id >= 0 {
              return Called(OnResult(id));
            }
          case ID =>
            if !value.Int? {
              return Thrown;
            }
            id := value.number;
          case STREAM =>
            if !value.Text? {
              return Thrown;
            }
            var parsed := ParseStream(value.text);
            if parsed.None? {
              return Fatal;
            }
            symbol, stream := parsed.value.0, parsed.value.1;
          case DATA =>
            match stream {
              case UNDEFINED_INTERNAL =>
              case UNKNOWN_INTERNAL =>
                if allowUnknown {
                  return Skipped;
                }
              case SERVER_SHUTDOWN => return Called(OnServerShutdown);
              case AGG_TRADE => return Called(OnAggTrade);
              case TRADE => return Called(OnTrade);
              case MINI_TICKER => return Called(OnMiniTicker);
              case BOOK_TICKER => return Called(OnBookTicker);
              case DEPTH5 => return Called(OnDepth(symbol));
              case DEPTH10 => return Called(OnDepth(symbol));
              case DEPTH20 => return Called(OnDepth(symbol));
              case DEPTH => return Called(OnDepthUpdate);
            }
        }
      }
      assert members[|members|..] == [];
    }
    return Fatal;
  }
}
