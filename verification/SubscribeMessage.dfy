/** The text of a subscription. The stream names are printed with one join, whose separator closes one
    name and opens the next. */
module SubscribeMessage {
  import opened Wrappers
  import opened Ascii
  import MarketStreamParser

  const HEAD := "{\"method\":\"SUBSCRIBE\",\"params\":"

  function Tail(id: nat): string {
    ",\"id\":" + Decimal(id) + "}"
  }

  function Params(symbols: seq<string>, channel: string): string {
    "[\"" + Join(symbols, "@" + channel + "\",\"") + "@" + channel + "\"]"
  }

  function Print(symbols: seq<string>, channel: string, id: nat): string {
    HEAD + Params(symbols, channel) + Tail(id)
  }

  // --- reading it back

  /** The rest of a JSON array of strings, after its opening bracket or a comma; the strings must not
      contain escapes. Yields the strings and what follows the array. */
  function ReadStrings(text: string): (r: Option<(seq<string>, string)>)
    decreases |text|
  {
    if text == "" || text[0] != '"' then None
    else
      var body := text[1..];
      var n := IndexOf(body, '"');
      if n + 1 >= |body| || '\\' in body[..n] then None
      else if body[n + 1] == ']' then Some(([body[..n]], body[n + 2..]))
      else if body[n + 1] == ',' then
        match ReadStrings(body[n + 2..])
        case None => None
        case Some(more) => Some(([body[..n]] + more.0, more.1))
      else None
  }

  function ReadArray(text: string): Option<(seq<string>, string)> {
    if text == "" || text[0] != '[' then None else ReadStrings(text[1..])
  }

  /** Free of the characters that end or escape a JSON string. */
  predicate Plain(s: string) {
    '"' !in s && '\\' !in s
  }

  function Names(symbols: seq<string>, channel: string): (names: seq<string>)
    ensures |names| == |symbols| && forall i :: 0 <= i < |symbols| ==> names[i] == symbols[i] + "@" + channel
  {
    if symbols == [] then [] else [symbols[0] + "@" + channel] + Names(symbols[1..], channel)
  }

  lemma ReadOne(name: string, closing: char, rest: string)
    requires Plain(name) && closing in {',', ']'}
    ensures ReadStrings("\"" + name + "\"" + [closing] + rest) ==
            if closing == ']' then Some(([name], rest))
            else match ReadStrings(rest)
                 case None => None
                 case Some(more) => Some(([name] + more.0, more.1))
  {
    var text := "\"" + name + "\"" + [closing] + rest;
    var body := text[1..];
    assert body == name + "\"" + [closing] + rest;
    assert body[..|name|] == name && body[|name|] == '"';
    IndexOfIs(body, '"', |name|);
    assert body[|name| + 1] == closing && body[|name| + 2..] == rest;
  }

  lemma {:induction false} ReadJoined(symbols: seq<string>, channel: string, rest: string)
    requires symbols != [] && Plain(channel) && forall s :: s in symbols ==> Plain(s)
    ensures ReadStrings("\"" + Join(symbols, "@" + channel + "\",\"") + "@" + channel + "\"]" + rest) == Some((Names(symbols, channel), rest))
  {
    var separator := "@" + channel + "\",\"";
    var name := symbols[0] + "@" + channel;
    var text := "\"" + Join(symbols, separator) + "@" + channel + "\"]" + rest;
    assert symbols[0] in symbols;
    assert Plain(name);
    if |symbols| == 1 {
      assert text == "\"" + name + "\"" + [']'] + rest;
      ReadOne(name, ']', rest);
      assert Names(symbols, channel) == [name];
    } else {
      var more := "\"" + Join(symbols[1..], separator) + "@" + channel + "\"]" + rest;
      assert text == "\"" + name + "\"" + [','] + more;
      ReadOne(name, ',', more);
      ReadJoined(symbols[1..], channel, rest);
    }
  }

  /** The printed text asks to subscribe: behind the method, the exchange reads exactly one stream name per
      symbol, in order, and then the id as a number; nothing else is there. */
  lemma PrintThenRead(symbols: seq<string>, channel: string, id: nat)
    requires symbols != [] && Plain(channel) && forall s :: s in symbols ==> Plain(s)
    ensures var head, tail := "{\"method\":\"SUBSCRIBE\",\"params\":", ",\"id\":" + Decimal(id) + "}";
            && |head| <= |Print(symbols, channel, id)| && Print(symbols, channel, id)[..|head|] == head
            && ReadArray(Print(symbols, channel, id)[|head|..]) == Some((Names(symbols, channel), tail))
  {
    var text := Params(symbols, channel) + Tail(id);
    assert Print(symbols, channel, id) == HEAD + text;
    assert text[1..] == "\"" + Join(symbols, "@" + channel + "\",\"") + "@" + channel + "\"]" + Tail(id);
    ReadJoined(symbols, channel, Tail(id));
  }

  /** The part of a channel before its frequency. */
  function ChannelName(channel: string): string {
    channel[..IndexOf(channel, '@')]
  }

  /** A stream name comes back as the upper-case symbol and the channel without its frequency. */
  lemma NameThenParse(symbol: string, channel: string)
    requires '@' !in symbol
    ensures MarketStreamParser.ParseStream(symbol + "@" + channel) ==
            Some((Upper(symbol), MarketStreamParser.StreamOf(ChannelName(channel))))
  {
    hide MarketStreamParser.StreamOf;
    var name := symbol + "@" + channel;
    assert name[..|symbol|] == symbol && name[|symbol|] == '@';
    IndexOfIs(name, '@', |symbol|);
    assert name[|symbol| + 1..] == channel;
  }

  lemma LowerPlain(s: string)
    requires Plain(s) && '@' !in s
    ensures Plain(Lower(s)) && '@' !in Lower(s)
  {
    forall i | 0 <= i < |s|
      ensures Lower(s)[i] != '"' && Lower(s)[i] != '\\' && Lower(s)[i] != '@'
    {
      assert s[i] in s;
      assert Lower(s)[i] == ToLower(s[i]);
    }
  }

  /** From the exchange's symbols to the wire and back: subscribing to the normalised symbols prints
      names that the parser of the data messages takes back to the original symbols. It does so for
      exactly the symbols without lower-case letters. */
  lemma SubscribeThenParse(symbols: seq<string>, channel: string, id: nat, i: nat)
    requires i < |symbols| && Plain(channel) && forall s :: s in symbols ==> Plain(s) && '@' !in s
    ensures var normalised := seq(|symbols|, j requires 0 <= j < |symbols| => Lower(symbols[j]));
            var read := ReadArray(Print(normalised, channel, id)[|HEAD|..]);
            && |HEAD| <= |Print(normalised, channel, id)|
            && read.Some? && |read.value.0| == |symbols| && read.value.1 == Tail(id)
            && var parsed := MarketStreamParser.ParseStream(read.value.0[i]);
               && parsed.Some?
               && parsed.value.1 == MarketStreamParser.StreamOf(ChannelName(channel))
               && (parsed.value.0 == symbols[i] <==> forall k :: 0 <= k < |symbols[i]| ==> !('a' <= symbols[i][k] <= 'z'))
  {
    hide MarketStreamParser.StreamOf, MarketStreamParser.ParseStream;
    var normalised := seq(|symbols|, j requires 0 <= j < |symbols| => Lower(symbols[j]));
    forall s | s in normalised
      ensures Plain(s)
    {
      var j :| 0 <= j < |symbols| && s == Lower(symbols[j]);
      LowerPlain(symbols[j]);
    }
    PrintThenRead(normalised, channel, id);
    LowerPlain(symbols[i]);
    NameThenParse(Lower(symbols[i]), channel);
    LowerThenUpper(symbols[i]);
  }
}
