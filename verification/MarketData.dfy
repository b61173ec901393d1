/** A market-data stream: it subscribes to its slice of the symbols, one message per channel, through a
    queue that a rate limiter drains. */
module MarketData {
  import opened Words
  import opened Ascii
  import opened Symbols
  import SubscribeMessage

  datatype Priority = PRIMARY | SECONDARY

  datatype Settings = Settings(tradeDetails: bool, depthFreq: nat, timeSeries: bool, enableSecondary: bool)

  const REQUEST_ID := 1_000_000

  datatype Message = Message(symbols: seq<string>, channel: string, id: uint64)

  function Text(m: Message): string {
    SubscribeMessage.Print(m.symbols, m.channel, m.id)
  }

  function Texts(messages: seq<Message>): (texts: seq<string>)
    ensures |texts| == |messages| && forall i :: 0 <= i < |texts| ==> texts[i] == Text(messages[i])
  {
    seq(|messages|, i requires 0 <= i < |messages| => Text(messages[i]))
  }

  /** `sent` and `queue` are what has been sent on, and what still waits for, the current connection. */
  datatype Feed = Feed(
    streamId: uint16, index: nat, priority: Priority, ready: bool, requestId: uint64, sent: seq<Message>, queue: seq<Message>)

  function NewFeed(streamId: uint16, index: nat, priority: Priority): Feed {
    Feed(streamId, index, priority, false, streamId * REQUEST_ID, [], [])
  }

  function DepthChannel(settings: Settings): string {
    "depth@" + Decimal(settings.depthFreq) + "ms"
  }

  /** The channels of a stream: trades and statistics come over the primary connection only. */
  function Channels(settings: Settings, priority: Priority): seq<string> {
    (if priority == PRIMARY then [if settings.tradeDetails then "trade" else "aggTrade", "miniTicker"] else [])
    + ["bookTicker", DepthChannel(settings)]
    + (if settings.timeSeries then ["kline_1m"] else [])
  }

  function Push(f: Feed, symbols: seq<string>, channel: string): Feed {
    var id := (f.requestId + 1) % TWO_64;
    f.(requestId := id, queue := f.queue + [Message(symbols, channel, id)])
  }

  function PushAll(f: Feed, symbols: seq<string>, channels: seq<string>): Feed {
    if channels == [] then f
    else Push(PushAll(f, symbols, channels[..|channels| - 1]), symbols, channels[|channels| - 1])
  }

  function Subscribe(settings: Settings, f: Feed, symbols: seq<string>): Feed {
    if symbols == [] then f else PushAll(f, symbols, Channels(settings, f.priority))
  }

  /** A stream that is not ready ignores new symbols; it will subscribe to all of them once it is. */
  function SubscribeFrom(settings: Settings, items: seq<string>, max: Positive, f: Feed, startFrom: nat): Feed {
    if f.ready then Subscribe(settings, f, Slice(items, max, f.index, startFrom)) else f
  }

  function OnReady(settings: Settings, items: seq<string>, max: Positive, f: Feed): Feed {
    SubscribeFrom(settings, items, max, f.(ready := true), 0)
  }

  function OnLost(f: Feed): Feed {
    f.(ready := false, sent := [], queue := [])
  }

  /** The rate limiter lets the first n messages pass. */
  function Drain(f: Feed, n: nat): Feed
    requires n <= |f.queue|
  {
    f.(sent := f.sent + f.queue[..n], queue := f.queue[n..])
  }

  class Stream {
    const settings: Settings
    const symbols: SymbolList
    const streamId: uint16
    const index: nat
    const priority: Priority
    var ready: bool
    var requestId: uint64
    var connection: seq<string>
    var subscribeQueue: seq<string>
    ghost var sent: seq<Message>
    ghost var queue: seq<Message>

    /** The texts on the wire and in the queue are the printed messages. */
    ghost predicate Valid()
      reads this
    {
      connection == Texts(sent) && subscribeQueue == Texts(queue)
    }

    ghost function View(): Feed
      reads this
    {
      Feed(streamId, index, priority, ready, requestId, sent, queue)
    }

    constructor (settings: Settings, symbols: SymbolList, streamId: uint16, priority: Priority, index: nat)
      ensures Valid() && this.settings == settings && this.symbols == symbols
      ensures View() == NewFeed(streamId, index, priority)
    {
      this.settings, this.symbols, this.streamId, this.priority, this.index := settings, symbols, streamId, priority, index;
      ready, requestId := false, streamId * REQUEST_ID;
      connection, subscribeQueue, sent, queue := [], [], [], [];
    }

    method PushMessage(slice: seq<string>, channel: string)
      requires Valid()
      modifies this`requestId, this`subscribeQueue, this`queue
      ensures Valid() && View() == Push(old(View()), slice, channel)
    {
      requestId := (requestId + 1) % TWO_64;
      var separator := "@" + channel + "\",\"";
      var message := "{\"method\":\"SUBSCRIBE\",\"params\":"
                     + ("[\"" + Join(slice, separator) + "@" + channel + "\"]")
                     + (",\"id\":" + Decimal(requestId) + "}");
      subscribeQueue := subscribeQueue + [message];
      queue := queue + [Message(slice, channel, requestId)];
      assert message == Text(Message(slice, channel, requestId));
    }

    method SubscribeSlice(slice: seq<string>)
      requires Valid()
      modifies this`requestId, this`subscribeQueue, this`queue
      ensures Valid() && View() == Subscribe(settings, old(View()), slice)
    {
      hide SubscribeMessage.Print, Text, Texts, Push, Decimal;
      if slice == [] {
        return;
      }
      ghost var channels := [];
      if priority == PRIMARY {
        if settings.tradeDetails {
          PushMessage(slice, "trade");
        } else {
          PushMessage(slice, "aggTrade");
        }
        PushMessage(slice, "miniTicker");
        channels := [if settings.tradeDetails then "trade" else "aggTrade", "miniTicker"];
        PushTwo(old(View()), slice, channels[0], channels[1]);
      }
      assert View() == PushAll(old(View()), slice, channels);
      PushMessage(slice, "bookTicker");
      PushMessage(slice, "depth@" + Decimal(settings.depthFreq) + "ms");
      PushOnto(old(View()), slice, channels, "bookTicker");
      channels := channels + ["bookTicker"];
      PushOnto(old(View()), slice, channels, DepthChannel(settings));
      channels := channels + [DepthChannel(settings)];
      assert View() == PushAll(old(View()), slice, channels);
      if settings.timeSeries {
        PushMessage(slice, "kline_1m");
        PushOnto(old(View()), slice, channels, "kline_1m");
        channels := channels + ["kline_1m"];
      }
      assert channels == Channels(settings, priority);
    }

    method SubscribeNew(startFrom: nat)
      requires Valid()
      modifies this`requestId, this`subscribeQueue, this`queue
      ensures Valid() && View() == SubscribeFrom(settings, symbols.items, symbols.max, old(View()), startFrom)
    {
      if ready {
        SubscribeSlice(Slice(symbols.items, symbols.max, index, startFrom));
      }
    }

    method OnConnectionReady()
      requires Valid()
      modifies this
      ensures Valid() && View() == OnReady(settings, symbols.items, symbols.max, old(View()))
    {
      ready := true;
      SubscribeNew(0);
    }

    method OnDisconnected()
      requires Valid()
      modifies this
      ensures Valid() && View() == OnLost(old(View()))
    {
      ready := false;
      connection, sent := [], [];
      subscribeQueue, queue := [], [];
    }

    /** `n` is how many messages the rate limiter lets pass. */
    method OnTimer(linkUp: bool, n: nat)
      requires Valid() && n <= |subscribeQueue|
      modifies this
      ensures Valid() && View() == if linkUp && ready then Drain(old(View()), n) else old(View())
    {
      if linkUp {
        if ready {
          connection := connection + subscribeQueue[..n];
          subscribeQueue := subscribeQueue[n..];
          sent := sent + queue[..n];
          queue := queue[n..];
        }
      }
    }
  }

  lemma PushOnto(f: Feed, symbols: seq<string>, channels: seq<string>, channel: string)
    ensures PushAll(f, symbols, channels + [channel]) == Push(PushAll(f, symbols, channels), symbols, channel)
  {
    assert (channels + [channel])[..|channels|] == channels;
  }

  lemma PushTwo(f: Feed, symbols: seq<string>, first: string, second: string)
    ensures PushAll(f, symbols, [first, second]) == Push(Push(f, symbols, first), symbols, second)
  {
    PushOnto(f, symbols, [], first);
    assert [] + [first] == [first];
    PushOnto(f, symbols, [first], second);
    assert [first] + [second] == [first, second];
  }
}
