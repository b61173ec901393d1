/** From a subscription to its data: which handler sees the data of a stream that was subscribed to. */
module Delivery {
  import opened Wrappers
  import opened Ascii
  import opened SubscribeMessage
  import opened MarketStreamParser
  import opened MarketStreamOrder
  import MarketData

  /** The handler that a channel is subscribed for; candles have none. */
  function HandlerOf(channel: string): Option<Call> {
    match channel
    case "aggTrade" => Some(OnAggTrade)
    case "trade" => Some(OnTrade)
    case "miniTicker" => Some(OnMiniTicker)
    case "bookTicker" => Some(OnBookTicker)
    case "kline_1m" => None
    case _ => Some(OnDepthUpdate)
  }

  /** Data of a stream without a handler is skipped if that is allowed, and ends the process if not. */
  function Expected(channel: string, allowUnknown: bool): Outcome {
    match HandlerOf(channel)
    case Some(call) => Called(call)
    case None => if allowUnknown then Skipped else Fatal
  }

  lemma PlainDecimal(n: nat)
    ensures Plain(Decimal(n)) && '@' !in Decimal(n)
  {
    var t := Decimal(n);
    forall c | c in t
      ensures '0' <= c <= '9'
    {
    }
  }

  lemma DepthChannel(settings: MarketData.Settings)
    ensures var channel := MarketData.DepthChannel(settings);
            Plain(channel) && ChannelName(channel) == "depth" && HandlerOf(channel) == Some(OnDepthUpdate)
  {
    var channel := MarketData.DepthChannel(settings);
    PlainDecimal(settings.depthFreq);
    assert channel[..5] == "depth" && channel[5] == '@';
    IndexOfIs(channel, '@', 5);
  }

  /** A text that is a channel name as it stands. */
  predicate Word(s: string) {
    Plain(s) && '@' !in s
  }

  lemma WordName(channel: string)
    requires Word(channel)
    ensures Plain(channel) && ChannelName(channel) == channel
  {
    assert channel[..|channel|] == channel;
    IndexOfIs(channel, '@', |channel|);
  }

  lemma OwnChannels(settings: MarketData.Settings, priority: MarketData.Priority, channel: string)
    requires channel in MarketData.Channels(settings, priority)
    ensures || channel == "aggTrade" || channel == "trade" || channel == "miniTicker" || channel == "bookTicker"
            || channel == "kline_1m" || channel == MarketData.DepthChannel(settings)
  {
    hide MarketData.DepthChannel;
  }

  lemma KnownStreams()
    ensures StreamOf("aggTrade") == AGG_TRADE && HandlerOf("aggTrade") == Some(OnAggTrade)
    ensures StreamOf("trade") == TRADE && HandlerOf("trade") == Some(OnTrade)
    ensures StreamOf("miniTicker") == MINI_TICKER && HandlerOf("miniTicker") == Some(OnMiniTicker)
    ensures StreamOf("bookTicker") == BOOK_TICKER && HandlerOf("bookTicker") == Some(OnBookTicker)
    ensures StreamOf("depth") == DEPTH
    ensures StreamOf("kline_1m") == Stream.UNKNOWN_INTERNAL && HandlerOf("kline_1m") == None
  {
  }

  lemma KnownWords()
    ensures Word("aggTrade") && Word("trade") && Word("miniTicker") && Word("bookTicker") && Word("kline_1m")
  {
    Letters("aggTrade");
    Letters("trade");
    Letters("miniTicker");
    Letters("bookTicker");
    Letters("kline_1m");
  }

  lemma Letters(s: string)
    requires forall i :: 0 <= i < |s| ==> s[i] in {'_', '1'} || 'A' <= s[i] <= 'Z' || 'a' <= s[i] <= 'z'
    ensures Word(s)
  {
  }

  /** A channel is settled if its data reaches its handler. */
  ghost predicate Settled(channel: string) {
    && Plain(channel)
    && forall symbol, allowUnknown :: Delivered(channel, symbol, allowUnknown) == Expected(channel, allowUnknown)
  }

  function Delivered(channel: string, symbol: string, allowUnknown: bool): Outcome {
    var delivered := Deliver(Context(NOTHING.id, symbol, StreamOf(ChannelName(channel))), allowUnknown);
    if delivered.Some? then delivered.value else Fatal
  }

  lemma WordSettled(channel: string)
    requires Word(channel)
    requires match HandlerOf(channel)
             case None => StreamOf(channel) == Stream.UNKNOWN_INTERNAL
             case Some(OnAggTrade) => StreamOf(channel) == AGG_TRADE
             case Some(OnTrade) => StreamOf(channel) == TRADE
             case Some(OnMiniTicker) => StreamOf(channel) == MINI_TICKER
             case Some(OnBookTicker) => StreamOf(channel) == BOOK_TICKER
             case _ => false
    ensures Settled(channel)
  {
    hide HandlerOf, StreamOf;
    WordName(channel);
  }

  lemma WordsSettled()
    ensures Settled("aggTrade") && Settled("trade") && Settled("miniTicker") && Settled("bookTicker") && Settled("kline_1m")
  {
    KnownStreams();
    KnownWords();
    hide HandlerOf, StreamOf, Word, Settled;
    WordSettled("aggTrade");
    WordSettled("trade");
    WordSettled("miniTicker");
    WordSettled("bookTicker");
    WordSettled("kline_1m");
  }

  /** The parser knows the channels a stream subscribes to, except the candles. */
  lemma ChannelIsKnown(settings: MarketData.Settings, priority: MarketData.Priority, channel: string, symbol: string, allowUnknown: bool)
    requires channel in MarketData.Channels(settings, priority)
    ensures Plain(channel) && Delivered(channel, symbol, allowUnknown) == Expected(channel, allowUnknown)
  {
    OwnChannels(settings, priority, channel);
    WordsSettled();
    assert Settled(MarketData.DepthChannel(settings)) by {
      DepthChannel(settings);
      KnownStreams();
      hide HandlerOf, StreamOf, MarketData.DepthChannel, ChannelName, Plain;
    }
    assert Settled(channel) by {
      hide Settled, MarketData.Channels, MarketData.DepthChannel;
    }
    hide Delivered, Expected, MarketData.Channels, MarketData.DepthChannel;
  }

  /** End to end, for every channel of a stream and every symbol of the exchange: the subscription
      names the stream, and the data message that carries that name, with its members in any order,
      reaches the handler of the channel. The candles are subscribed to but have none. */
  lemma SubscribeThenDeliver(settings: MarketData.Settings, priority: MarketData.Priority, channel: string,
                             symbols: seq<string>, id: nat, i: nat,
                             members: seq<Member>, value: Value, allowUnknown: bool)
    requires channel in MarketData.Channels(settings, priority)
    requires i < |symbols| && forall s :: s in symbols ==> Plain(s) && '@' !in s
    ensures var normalised := seq(|symbols|, j requires 0 <= j < |symbols| => Lower(symbols[j]));
            var read := ReadArray(Print(normalised, channel, id)[|HEAD|..]);
            && read.Some? && |read.value.0| == |symbols|
            && (Consists(members, {Member("stream", Text(read.value.0[i])), Member("data", value)}) ==>
                  Route(members, allowUnknown) == Expected(channel, allowUnknown))
  {
    ChannelIsKnown(settings, priority, channel, symbols[i], allowUnknown);
    hide StreamOf, ParseStream, Route, Deliver, ReadArray, Print, Expected, MarketData.Channels, Consists, Plain, Lower, ChannelName;
    SubscribeThenParse(symbols, channel, id, i);
    var normalised := seq(|symbols|, j requires 0 <= j < |symbols| => Lower(symbols[j]));
    var name := ReadArray(Print(normalised, channel, id)[|HEAD|..]).value.0[i];
    CommonForms(members, 0, value, name, allowUnknown);
    ChannelIsKnown(settings, priority, channel, ParseStream(name).value.0, allowUnknown);
  }

  // --- all streams of the exchange

  /** A data message: it names a stream and has data, in whatever order and with whatever else, but with no
      other member that the dispatcher looks at. */
  ghost predicate IsData(members: seq<Member>, name: string, value: Value) {
    forall m :: m in members && m.key in {"", "error", "result", "id", "stream", "data"} <==>
                m in {Member("stream", Text(name)), Member("data", value)}
  }

  lemma FieldsKnown(key: string)
    ensures FieldOf(key) != Field.UNKNOWN_INTERNAL <==> key in {"", "error", "result", "id", "stream", "data"}
  {
  }

  lemma DataConsists(members: seq<Member>, name: string, value: Value)
    requires IsData(members, name, value)
    ensures Consists(members, {Member("stream", Text(name)), Member("data", value)})
  {
    hide FieldOf;
    forall m: Member
      ensures FieldOf(m.key) != Field.UNKNOWN_INTERNAL <==> m.key in {"", "error", "result", "id", "stream", "data"}
    {
      FieldsKnown(m.key);
    }
  }

  lemma FlatStreams(stream: string, allowUnknown: bool, symbol: string, id: int)
    ensures var outcome := Deliver(Context(id, symbol, StreamOf(stream)), allowUnknown);
            && (stream == "aggTrade" ==> outcome == Some(Called(OnAggTrade)))
            && (stream == "trade" ==> outcome == Some(Called(OnTrade)))
            && (stream == "miniTicker" ==> outcome == Some(Called(OnMiniTicker)))
            && (stream == "bookTicker" ==> outcome == Some(Called(OnBookTicker)))
            && (stream == "!serverShutdown" ==> outcome == Some(Called(OnServerShutdown)))
            && (stream == "" ==> outcome == None)
  {
  }

  lemma DepthStreams(stream: string, allowUnknown: bool, symbol: string, id: int)
    ensures var outcome := Deliver(Context(id, symbol, StreamOf(stream)), allowUnknown);
            && (stream in {"depth5", "depth10", "depth20"} ==> outcome == Some(Called(OnDepth(symbol))))
            && (stream == "depth" ==> outcome == Some(Called(OnDepthUpdate)))
  {
  }

  const STREAMS := {
    "", "!serverShutdown", "aggTrade", "trade", "miniTicker", "bookTicker", "depth5", "depth10", "depth20", "depth"}

  lemma UnknownStreams(stream: string, allowUnknown: bool, symbol: string, id: int)
    requires stream !in STREAMS
    ensures Deliver(Context(id, symbol, StreamOf(stream)), allowUnknown) == if allowUnknown then Some(Skipped) else None
  {
  }

  /** The handler for every stream of the exchange, by the text between the first at sign and the second:
      trades, statistics and best prices, the three snapshots, which are told the symbol in upper case, and
      the changes of the depth. Another name is skipped if that is allowed; if not, or if there is none, the
      process ends. */
  lemma StreamHandlers(members: seq<Member>, symbol: string, stream: string, frequency: Option<string>, value: Value, allowUnknown: bool)
    requires '@' !in symbol && '@' !in stream
    requires IsData(members, symbol + "@" + (stream + if frequency.Some? then "@" + frequency.value else ""), value)
    ensures var outcome := Route(members, allowUnknown);
            && (stream == "aggTrade" ==> outcome == Called(OnAggTrade))
            && (stream == "trade" ==> outcome == Called(OnTrade))
            && (stream == "miniTicker" ==> outcome == Called(OnMiniTicker))
            && (stream == "bookTicker" ==> outcome == Called(OnBookTicker))
            && (stream in {"depth5", "depth10", "depth20"} ==> outcome == Called(OnDepth(Upper(symbol))))
            && (stream == "depth" ==> outcome == Called(OnDepthUpdate))
            && (stream == "" ==> outcome == Fatal)
            && (stream !in STREAMS ==> outcome == if allowUnknown then Skipped else Fatal)
  {
    var channel := stream + if frequency.Some? then "@" + frequency.value else "";
    var name := symbol + "@" + channel;
    assert channel[..|stream|] == stream;
    IndexOfIs(channel, '@', |stream|);
    NameThenParse(symbol, channel);
    DataConsists(members, name, value);
    CommonForms(members, 0, value, name, allowUnknown);
    FlatStreams(stream, allowUnknown, Upper(symbol), NOTHING.id);
    DepthStreams(stream, allowUnknown, Upper(symbol), NOTHING.id);
    hide Route, Deliver, StreamOf, ParseStream, IsData, Consists;
    if stream !in STREAMS {
      UnknownStreams(stream, allowUnknown, Upper(symbol), NOTHING.id);
    }
  }

  /** Streams without a symbol: the announcement of a shutdown has its handler, and every other name that
      begins in the same way is skipped if that is allowed and ends the process if not. */
  lemma StreamsWithoutSymbol(members: seq<Member>, name: string, value: Value, allowUnknown: bool)
    requires IsData(members, name, value) && '@' !in name && name != "" && name[0] == '!'
    ensures Route(members, allowUnknown) ==
            if name == "!serverShutdown" then Called(OnServerShutdown) else if allowUnknown then Skipped else Fatal
  {
    assert name[..|name|] == name;
    IndexOfIs(name, '@', |name|);
    DataConsists(members, name, value);
    CommonForms(members, 0, value, name, allowUnknown);
    FlatStreams(name, allowUnknown, "", NOTHING.id);
    assert ParseStream(name) == Some(("", StreamOf(name))) by {
      hide StreamOf;
    }
    hide Route, Deliver, StreamOf, ParseStream, IsData, Consists;
    if name != "!serverShutdown" {
      OnlyShutdown(name);
      UnknownStreams(name, allowUnknown, "", NOTHING.id);
    }
  }

  lemma OnlyShutdown(name: string)
    requires name != "" && name[0] == '!' && name != "!serverShutdown"
    ensures name !in STREAMS
  {
  }

  lemma {:induction false} PassEnds(members: seq<Member>, name: string, value: Value, allowUnknown: bool)
    requires ParseStream(name) == None && Member("stream", Text(name)) in members
    requires forall m :: m in members ==>
               FieldOf(m.key) == Field.UNKNOWN_INTERNAL || m == Member("stream", Text(name)) || m == Member("data", value)
    ensures Pass(NOTHING, members, allowUnknown) == Stop(Fatal)
    decreases |members|
  {
    KnownFields();
    hide ParseStream, FieldOf;
    assert members[0] in members;
    if members[0] != Member("stream", Text(name)) {
      PassEnds(members[1..], name, value, allowUnknown);
    }
  }

  /** A name without an at sign that does not begin with an exclamation mark ends the process. */
  lemma NoStream(members: seq<Member>, name: string, value: Value, allowUnknown: bool)
    requires IsData(members, name, value) && '@' !in name && (name == "" || name[0] != '!')
    ensures Route(members, allowUnknown) == Fatal
  {
    assert name[..|name|] == name;
    IndexOfIs(name, '@', |name|);
    DataConsists(members, name, value);
    hide FieldOf;
    PassEnds(members, name, value, allowUnknown);
  }
}
