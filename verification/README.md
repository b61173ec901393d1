# Binance gateway: a verified model

The gateway connects a trading system to the exchange. Per account it runs an order-entry stream and a
drop copy, it spreads market data over several connections, and it prints and parses the messages of the
exchange by hand. This project models the parts of it that carry protocol, codec and arithmetic content,
and proves what they keep over whole runs. `dafny verify dfyconfig.toml` checks everything.

Classes follow the source's classes and update their fields in place; each of their methods is proved
against a function of the old state, and the results are proved about runs of those functions. Time
stamps, clock readings and the replies of the exchange are parameters of the steps.

| files | content |
|---|---|
| `Mailbox`, `Portfolio`, `PortfolioRun`, `PortfolioScript` | the timestamp mailbox between a drop copy and an order-entry stream; portfolio accounts |
| `Margin`, `MarginRun`, `MarginHandshake`, `MarginPoll`, `MarginDrop`, `MarginScript`, `Accounts` | the same for margin accounts, what the poll of borrowed amounts does to it, and that the two kinds of account do not touch each other |
| `ProcessResponse` | the common treatment of HTTP responses |
| `Words`, `Base64Url`, `WSAPIRequest`, `WSAPISample`, `WSAPIParser` | the correlation id of web-socket requests, and routing by it |
| `WebSocket`, `WebSocketRun`, `WebSocketSteps`, `StreamIds`, `Enumeration` | the web-socket order-entry stream; ids over whole runs and over several streams |
| `Symbols`, `MarketData`, `Controller`, `ControllerRun`, `ControllerStreams`, `Listings` | symbol slices, market-data streams and their creation |
| `Ascii`, `SubscribeMessage`, `MarketStreamParser`, `MarketStreamOrder`, `Delivery` | subscription texts, market-data routing, and the way from one to the other |
| `UpdateFilter` | the filter that merges primary and secondary feeds |
| `EnumMap`, `Fields`, `Encoder`, `EncoderLaws`, `EncoderMeaning`, `EncoderSample` | the order encoders and what their receiver reads |
| `CancelAll`, `Fills`, `Throttle` | cancelling all orders over REST, adding up fills, back-off |

## What came out

- Mailbox: at most one download runs at a time, stamps mean what they are taken to mean, and a stage ends
  only after an answer. The answer may be to a question from before a disconnect; it is certainly a fresh
  one exactly if nothing of that kind was out when the stage began (`PortfolioRun.FreshnessCondition`;
  `PortfolioScript.StaleRun` gets there from the beginning).
- The timers of both drop copies call the checks only under READY, while a download has the status
  DOWNLOADING. If nothing else calls them, no stage ever ends, and a margin account never gets to its
  orders (`PortfolioRun.TimerNeverEndsAStage`, `MarginHandshake.TimerNeverEndsAStage`). The handshake
  results are about the checks themselves, by the timer or called directly; with direct checks runs do
  complete the download (`PortfolioScript.CompleteRun`, `MarginScript.CompleteRun`). Nothing ever asks for
  the cross trades, so what is said about their flag is empty.
- Margin: the callback of the poll of borrowed amounts stamps the same field as the account download. A
  raised account flag stays due while it is up exactly if no poll is out when it is raised, and in all runs
  exactly if the poll is switched off (`MarginPoll.DueCondition`, `MarginPoll.PollCondition`). For the same
  reason the account stage of the drop copy can end on the answer of a poll
  (`MarginPoll.FreshnessCondition`, `MarginPoll.PollEndsStage`).
- An order callback sends a second response exactly if the dispatcher throws on the first one while the
  treatment still catches exceptions, which covers acceptances as well as rejections of the exchange
  (`ProcessResponse.OrderAnswers`).
- What prevents an answer to an order is reported as what it is: a network error comes from the gateway with
  its own status and is never taken for a rejection of the exchange (`ProcessResponse.FirstAnswer`,
  `ProcessResponse.SecondAnswer`).
- What the exchange reads from each kind of request is stated name by name, from the fields of the request
  alone (`EncoderMeaning`). A cancellation over the web socket names the request to be cancelled as the
  original one; over REST it goes by exactly one of two ids.
- Every stream is created once: in every state of every run the number of streams of each kind and name is
  what accounts, listen keys and slices make it (`ControllerStreams.StreamsCreated`).
- The request-number blocks of web-socket streams are disjoint up to stream 4294; stream 4295 collides with
  an earlier one (`StreamIds.BlocksDisjoint`, `StreamIds.Collision`). The market-data blocks have no such
  limit.
- For every market-data message, malformed ones included, the outcomes of its orders are exactly those that
  its members allow as a set, so the order does not matter exactly if they allow one only
  (`MarketStreamOrder.OutcomesOfOrders`, `MarketStreamOrder.OrderCondition`).
- With a time-series lookback, streams subscribe to one-minute candles, which the parser does not know: the
  data is skipped if unknown events are allowed and ends the process if not
  (`Delivery.SubscribeThenDeliver`).
- The way from a symbol to the wire and back is exact for exactly the symbols without lower-case letters
  (`SubscribeMessage.SubscribeThenParse`). What users ask for is not normalised: two listed symbols mean the
  same stream exactly if they are equal up to case (`Listings.SharedStreams`).
- Only some encoders print their parameters in alphabetical order (`EncoderLaws.KeysAscend`). A limit order
  whose time in force the exchange does not have is sent without one (`EncoderLaws.TimeInForceSurvives`).
- After its first refusal the throttle ignores every 429 (`Throttle.OnlyFirst429`).

## Assumptions

- Event times are strictly increasing. Callbacks of HTTP requests run asynchronously, each once, possibly
  after a disconnect; issuing a request does not throw. A connection becomes ready once.
- Exceptions derive from the standard exception, so all of them are caught where the source catches. Handlers
  may throw; those of downloads only log and stamp, and do not.
- The machine is little-endian. Asserts are compiled out (release build).
- Closed or generated code is modelled by what the visible code needs: the download machine enters the
  first stage on begin, skips a stage that waits for nothing, moves on by one stage on a check, and is
  undefined after a reset; the symbol list only grows, is cut into chunks of a positive size, and yields
  the part of a chunk from a position on; the limited queue is first in first out and lets a prefix pass;
  conversion of a text to an enumerator gives UNDEFINED_INTERNAL for the empty text and UNKNOWN_INTERNAL
  for one that is not listed, and an enumerator that is not defined prints as the empty text; base 64 is
  the URL-safe alphabet of section 5 of RFC 4648, and a character outside it is an error.
- A JSON message is a sequence of members, in any order (section 4 of RFC 8259).
- Decimals come as their texts; prices and quantities of fills are exact numbers; an absent number is
  `None`, where the source has NaN.
- The eight flags of the margin stream are one record of eight flags. A request that is out is recorded
  together with its kind and its time; so are the callbacks that have run.

## Model

| member | source | states |
|---|---|---|
| `PortfolioRun.MailboxSafety` | src/roq/binance/gateway/order_entry_portfolio.cpp:167-191 | In every state of every run, for any interleaving of timers, callbacks (also late ones), disconnects and new requests: at most one download flag is up; a raised flag means that the request stamp is newer than the response stamp and that a request of that kind is out; a response stamp is the time of the latest callback of its kind, or zero; equal stamps are both zero; the cross-margin fields are untouched. |
| `PortfolioRun.Handshake` | src/roq/binance/gateway/drop_copy_portfolio.cpp:411-454 | Whenever a check moves the drop copy on from a stage, a callback of that kind was handled strictly after the time of that stage's request; crosses both streams and the shared record. |
| `PortfolioRun.CompletedDownloadWasServed` | src/roq/binance/gateway/drop_copy_portfolio.cpp:220-252 | When the download is done, there were callbacks of account, orders and (if enabled) trades in this order, each strictly after the one before and after the download began. |
| `PortfolioRun.StatusTellsStage` | src/roq/binance/gateway/drop_copy_portfolio.cpp:220-252 | In every state of every run the published status is DISCONNECTED exactly without a stage, DOWNLOADING exactly while a stage waits, and READY exactly when the download is done. |
| `PortfolioRun.TimerNeverEndsAStage` | src/roq/binance/gateway/drop_copy_portfolio.cpp:127-136 | The gate as written: a stage publishes DOWNLOADING while the timer checks only under READY, so if nothing but the timer calls the checks, the first stage never ends. |
| `PortfolioRun.FreshnessCondition` | src/roq/binance/gateway/drop_copy_portfolio.cpp:416-424 | A stage ends only on an answer to a request issued during the stage, in all continuations, if and only if no request of that kind was out when the stage was entered: a late callback from before a disconnect is taken for the answer. |
| `PortfolioScript.StaleRun` | src/roq/binance/gateway/drop_copy_portfolio.cpp:180-191 | The failing state of that condition is reached from the beginning: account asked for, download started, drop copy lost and back. |
| `PortfolioScript.CompleteRun` | src/roq/binance/gateway/drop_copy_portfolio.cpp:411-454 | With direct checks a run from the beginning completes the download, with and without trades. |
| `PortfolioRun.RoundSettles` | src/roq/binance/gateway/order_entry_portfolio.cpp:172-188 | One timer tick followed by the callbacks of everything it issued settles the first pending kind (account, then orders, then trades), leaves the worker idle, and settles nothing else if nothing else was out. |
| `PortfolioRun.DrainTerminates` | src/roq/binance/gateway/order_entry_portfolio.cpp:167-191 | As many such rounds as there are pending kinds leave nothing pending. |
| `PortfolioRun.RunSafe` | src/roq/binance/gateway/order_entry_portfolio.cpp:286-297 | The joint invariant of mailbox, worker and drop copy holds from any safe state over any feasible run. |
| `PortfolioRun.AckSettles` | src/roq/binance/gateway/order_entry_portfolio.cpp:431-449 | A callback, successful or not, takes its kind out of the pending ones and lowers its flag, and adds nothing. |
| `PortfolioRun.TickSends` | src/roq/binance/gateway/order_entry_portfolio.cpp:167-191 | What a tick sends, in any state: with the link up, ready, master and no download running, it starts account if that is due, else orders, else trades, raises that flag alone, and adds to what is in flight one request without a symbol for account or orders, and for trades exactly one request for each symbol of the settings, the i-th for the i-th; otherwise nothing changes. |
| `PortfolioRun.QuietWhileDown` | src/roq/binance/gateway/order_entry_portfolio.cpp:286-297 | After a disconnect the requests that were out are out still, and in every run until the stream is ready again no flag goes up and no request is added, whatever the drop copy asks for. |
| `Portfolio.OrderEntryPortfolio.OnTimer` | src/roq/binance/gateway/order_entry_portfolio.cpp:167-191 | The three guarded tests of the timer start exactly the first due download, under link, readiness and mastership only. |
| `Portfolio.OrderEntryPortfolio.GetTrades` | src/roq/binance/gateway/order_entry_portfolio.cpp:580-605 | The loop over the symbols appends the requests that PortfolioRun.TickSends lists: the i-th for the i-th symbol. |
| `Portfolio.OrderEntryPortfolio.OnDisconnected` | src/roq/binance/gateway/order_entry_portfolio.cpp:286-297 | All flags go down; requests that are out stay out. |
| `Portfolio.OrderEntryPortfolio.OnAck` | src/roq/binance/gateway/order_entry_portfolio.cpp:431-449 | The callback stamps the response of its kind and lowers its flag only. |
| `Portfolio.DropCopyPortfolio.Download` | src/roq/binance/gateway/drop_copy_portfolio.cpp:220-252 | Entering a stage publishes DOWNLOADING and stamps that stage's request; trades are skipped if there is no lookback or no symbol; DONE publishes READY. |
| `Portfolio.DropCopyPortfolio.OnTimer` | src/roq/binance/gateway/drop_copy_portfolio.cpp:127-136 | The three checks in order, under READY only. |
| `Portfolio.DropCopyPortfolio.OnDisconnected` | src/roq/binance/gateway/drop_copy_portfolio.cpp:180-186 | The download is reset; the shared record stays as it is. |
| `ProcessResponse.HandlersRun` | src/roq/binance/gateway/order_entry_portfolio.cpp:1100-1156 | For every response and any behaviour of the handlers: the success handler runs exactly on a success, once and first; if the first handler called throws, success or error, the error handler is called for its exception, also a second time; if none is called, it is called for what prevented that; an exception leaves if and only if that last call throws. |
| `ProcessResponse.DownloadAck` | src/roq/binance/gateway/order_entry_portfolio.cpp:431-449 | Whatever the status class, and also if the body cannot be parsed or the result cannot be obtained, the download ends with its flag down and its response stamp set to the time of the callback, and nothing else changed. |
| `ProcessResponse.DownloadAckIsWorkerAck` | src/roq/binance/gateway/order_entry_portfolio.cpp:505-523 | So every response is the acknowledgement step that the mailbox results are about. |
| `ProcessResponse.OrderAnswers` | src/roq/binance/gateway/order_entry_portfolio.cpp:726-751 | The number of responses: an order callback answers its own order only, once, unless the process ends; twice if and only if the dispatcher throws on the response dispatched inside the guarded part, an acceptance or a rejection; and an exception leaves if and only if the dispatcher throws on the last response. What the responses say is stated by FirstAnswer and SecondAnswer. |
| `ProcessResponse.FirstAnswer` | src/roq/binance/gateway/order_entry_portfolio.cpp:1103-1155 | The first response, case by case, with the ids of the order: ACCEPTED for a success that could be read; REJECTED by the exchange for 403, 418 and 429 (rate limit), for other client errors (the error that the code of the body stands for) and for server errors (unknown); and for whatever prevents an answer the truth about it: a network error comes from the GATEWAY with the exception's own status and error, an exception of the order-management system keeps its origin, status and error, any other is EXCHANGE, ERROR, UNKNOWN. |
| `ProcessResponse.SecondAnswer` | src/roq/binance/gateway/order_entry_margin.cpp:1459-1470 | If the dispatcher throws on the first response, the second one, for the same order, reports that exception in the same three ways; if it does not throw there is no second one. |
| `ProcessResponse.ObstacleIs` | src/roq/binance/gateway/order_entry_portfolio.cpp:1103-1143 | There is no answer if and only if there is no result, the status is unknown or informational, the body of an error cannot be parsed, or the body of a success cannot be read; and which exception tells so. |
| `ProcessResponse.WhenFatal` | src/roq/binance/gateway/order_entry_portfolio.cpp:1111-1121 | The process ends if and only if the answer is a redirection, or a 403 with the setting that says so. |
| `ProcessResponse.FirstTold` | src/roq/binance/gateway/order_entry_portfolio.cpp:1144-1155 | An exception before any handler has run reaches the error handler once, with its own origin, status, error and text if it comes from the order-management system, with GATEWAY and its own status, error and text if it comes from the network, and as EXCHANGE, ERROR, UNKNOWN otherwise. |
| `ProcessResponse.SecondTold` | src/roq/binance/gateway/order_entry_margin.cpp:1459-1470 | The same for an exception of the handler that ran first, success or error; without one no other handler runs. |
| `ProcessResponse.AcceptanceReported` | src/roq/binance/gateway/order_entry_portfolio.cpp:726-751 | The first response reports acceptance if and only if it answers a success that could be read, or an exception that came before any response carries that status itself. |
| `MarginRun.MarginIsolation` | src/roq/binance/gateway/order_entry_margin.cpp:151-197 | Over every run of the controller the spot fields of an account that is not a portfolio account stay zero, it gets no portfolio drop copy, the spot branches of its timer are never taken, the process does not end, and at most one of the eight flags is up; a raised flag is still due, the cross account excepted. |
| `MarginRun.PortfolioIsolation` | src/roq/binance/gateway/controller.cpp:221-256 | A portfolio account never gets a margin drop copy and its cross-margin fields stay zero. |
| `MarginPoll.DueCondition` | src/roq/binance/gateway/order_entry_margin.cpp:914-929 | A raised flag of the cross account stays due while it is up, in all continuations, if and only if no poll of borrowed amounts is out when it is raised. |
| `MarginPoll.RaisedByTick` | src/roq/binance/gateway/order_entry_margin.cpp:176-179 | A tick that raises that flag finds the download due. |
| `MarginPoll.PollCondition` | src/roq/binance/gateway/order_entry_margin.cpp:189-193 | A raised flag of the cross account is due in every state of every run of every controller, if and only if the poll is switched off; the failing run from the beginning is poll, disconnect, reconnect, request, tick, late callback of the poll. |
| `MarginPoll.FreshnessCondition` | src/roq/binance/gateway/drop_copy_margin.cpp:677-685 | The account stage of the margin drop copy ends, in all continuations, only on the answer to a download started during the stage, if and only if neither a download of the account nor a poll was out when it was entered. |
| `MarginPoll.PollEndsStage` | src/roq/binance/gateway/drop_copy_margin.cpp:677-685 | With the poll switched on, a run from the beginning leads to an account stage that a check ends although no download of the account was ever answered. |
| `MarginHandshake.Handshake` | src/roq/binance/gateway/drop_copy_margin.cpp:670-695 | In every run, whatever a check of the margin drop copy ends, called by the timer or directly, is accounted for by a callback handled strictly after the request: account and orders stage, and the wait for a listen key. |
| `MarginHandshake.CompletedDownloadWasServed` | src/roq/binance/gateway/drop_copy_margin.cpp:235-267 | A completed download had a callback for the account between its two requests and one for the orders after the second. |
| `MarginHandshake.TimerNeverEndsAStage` | src/roq/binance/gateway/drop_copy_margin.cpp:133-142 | The same gate as for portfolio accounts: if nothing but the timer calls the checks, no margin drop copy gets past its account stage or publishes READY, and no orders are asked for or downloaded. |
| `MarginHandshake.RunTimely` | src/roq/binance/gateway/order_entry_margin.cpp:396-431 | Over every run each response stamp of a margin account is the time of the latest callback that stamps it, equal stamps are both zero, and each stage has the callbacks that it needs. |
| `MarginDrop.StatusTellsStage` | src/roq/binance/gateway/drop_copy_margin.cpp:207-267 | In every state of every run the status that a margin drop copy publishes is DISCONNECTED, LOGIN_SENT or READY exactly without a stage, while logging on, or when done; and there is a drop copy exactly if the order-entry stream has had a listen key. |
| `MarginDrop.StageTable` | src/roq/binance/gateway/drop_copy_margin.cpp:276-308 | Which event ends which stage, in every state whose status tells the stage: logon and subscription with code 200 only, the two checks only if the answer is newer than the request; being ready and being lost; and no tick. |
| `MarginDrop.Asks` | src/roq/binance/gateway/drop_copy_margin.cpp:235-267 | Which event asks for what: entering the account stage for the account, the orders stage for the orders, and the end of the event stream for a listen key, if there is a token; no event asks for anything else. |
| `MarginDrop.Token` | src/roq/binance/gateway/drop_copy_margin.cpp:310-320 | How the listen token and the wait for a new one change with every event: cleared when the event stream ends, replaced by the key of a callback, and the wait ends with the first check after an answer. |
| `MarginDrop.Created` | src/roq/binance/gateway/controller.cpp:237-247 | A margin drop copy is created by the first listen key that a callback brings and by nothing else, and begins with that key. |
| `MarginDrop.TokenRenewed` | src/roq/binance/gateway/drop_copy_margin.cpp:670-675 | Across both streams: the end of the event stream, a tick of an idle order-entry stream, the callback of the request that this tick sent, and a check; the drop copy has the new key and waits no more, and the order-entry stream is as before. |
| `MarginScript.CompleteRun` | src/roq/binance/gateway/drop_copy_margin.cpp:677-695 | With direct checks a run from the beginning completes the download, by way of a raised flag for the orders. |
| `MarginRun.RunSafe` | src/roq/binance/gateway/order_entry_margin.cpp:290-306 | The invariant of all accounts is kept by every step of every account. |
| `MarginRun.TickSafe` | src/roq/binance/gateway/order_entry_margin.cpp:151-197 | The timer of a margin account keeps the invariant and does not end the process. |
| `MarginRun.TickStarts` | src/roq/binance/gateway/order_entry_margin.cpp:151-197 | What a tick of a margin worker does, in every reachable state: with the link up, ready and none of the eight flags up, it starts the first due of listen key, cross account, cross orders, and if none is due the poll, provided that polls are on and none was started yet or the time of the next has passed; one flag goes up and one request out; a poll sets the time of the next to the clock plus the interval, nothing else does; otherwise nothing changes. |
| `MarginRun.SpotStarts` | src/roq/binance/gateway/order_entry_margin.cpp:158-188 | In any state, reachable or not, a due spot account or due spot orders end the process, and due trades, spot or cross, take as many requests as there are symbols. |
| `MarginRun.ConnectAsks` | src/roq/binance/gateway/order_entry_margin.cpp:280-288 | On connecting a listen key is asked for exactly if the stream has not had one; nothing else changes. |
| `MarginRun.QuietWhileDown` | src/roq/binance/gateway/order_entry_margin.cpp:290-306 | After a disconnect, in every run until the stream is ready again, no flag goes up and nothing is sent but requests for a listen key on connecting. |
| `MarginPoll.PollsSpaced` | src/roq/binance/gateway/order_entry_margin.cpp:189-193 | In every run, reconnects included, no tick up to the time that the last poll has set starts another poll, and that time stays. |
| `Margin.OrderEntryMargin.OnTimer` | src/roq/binance/gateway/order_entry_margin.cpp:151-197 | The seven mailbox tests and the poll start exactly the first that is due; a due spot account or spot orders ends the process. |
| `Margin.OrderEntryMargin.OnAck` | src/roq/binance/gateway/order_entry_margin.cpp:396-431 | The callback lowers its flag, stamps its response (the poll stamps the cross account), and remembers that there is a listen key. |
| `Margin.DropCopyMargin.OnTimer` | src/roq/binance/gateway/drop_copy_margin.cpp:133-142 | Listen-key, account and orders checks in order, under READY only. |
| `Margin.DropCopyMargin.OnEventStreamTerminated` | src/roq/binance/gateway/drop_copy_margin.cpp:310-320 | A terminated stream clears the listen token and asks for a new one, once. |
| `WSAPIRequest.RoundTrip` | src/roq/binance/protocol/json/wsapi_request.cpp:20-48 | Decoding an encoded id gives the request back for every value of all six fields; the text has 36 characters of the URL-safe base 64 alphabet (sections 4 and 5 of RFC 4648). |
| `WSAPIRequest.Injective` | src/roq/binance/protocol/json/wsapi_request.cpp:20-32 | Different requests have different ids. |
| `WSAPIRequest.RoundTripBack` | src/roq/binance/protocol/json/wsapi_request.cpp:34-48 | Exactly the 36-character texts of the alphabet decode, and such a text is the encoding of what it decodes to if and only if its 27th byte is zero. |
| `WSAPIRequest.Encode` | src/roq/binance/protocol/json/wsapi_request.cpp:20-32 | The array is filled in place to the byte layout of the six fields and printed. |
| `WSAPIRequest.Decode` | src/roq/binance/protocol/json/wsapi_request.cpp:34-48 | A length other than 36 fails; otherwise the fields are read from the array. |
| `WSAPISample.SampleText` | test/json_wsapi_order_place.cpp:17-20 | Anchor, not a result: the id in a recorded reply is the encoding of one particular order request, which fixes the order of the fields, the order of their bytes, and the alphabet. |
| `Base64Url.RoundTrip` | src/roq/binance/protocol/json/wsapi_request.cpp:30-39 | Decoding undoes encoding for every multiple of three bytes. |
| `Base64Url.RoundTripBack` | src/roq/binance/protocol/json/wsapi_request.cpp:38-39 | Encoding undoes decoding for every text of digits in blocks of four. |
| `WSAPIParser.Dispatch` | src/roq/binance/protocol/json/wsapi_parser.cpp:122-148 | The early-return loop over the members and, for an event, over its members; where it leads is stated by RouteReply for ids and by EventDelivered for events. |
| `WSAPIParser.RouteReply` | src/roq/binance/protocol/json/wsapi_parser.cpp:27-66 | A reply that carries an id goes to the handler of the type in the id, wherever the id stands. |
| `WSAPIParser.ReplyDelivered` | src/roq/binance/protocol/json/wsapi_parser.cpp:27-66 | A reply of an unknown type is skipped if that is allowed and ends the process if not, one of an undefined type ends it; exactly the other types have a handler, and those of orders get the decoded request. |
| `WSAPIParser.EventDelivered` | src/roq/binance/protocol/json/wsapi_parser.cpp:68-119 | The first "e" of an event, wherever the event stands among members that do nothing: executionReport, balanceUpdate, outboundAccountPosition and eventStreamTerminated go each to its own handler; serverShutdown and every name that is not listed is skipped if unknown events are allowed and ends the process if not; every other listed name and the empty one ends the process; a name that is not a text is an exception. |
| `WSAPIParser.OtherEnds` | src/roq/binance/protocol/json/wsapi_parser.cpp:122-148 | An id or an event of the wrong kind, or an id that does not decode, is an exception; a message without id and event name is skipped if unknown events are allowed and ends the process if not. |
| `WebSocketRun.DistinctIds` | src/roq/binance/gateway/web_socket.cpp:890-1228 | In every run two messages share their sequence number if and only if the 32-bit counter has gone round in between; otherwise their ids differ. |
| `WebSocketRun.ReplyReachesSender` | src/roq/binance/gateway/web_socket.cpp:1048-1228 | In every state of every run, a reply that echoes an id handed out reaches exactly the handler of what was asked, with user, order and version. |
| `WebSocketRun.OrderReplyRoundTrip` | src/roq/binance/gateway/web_socket.cpp:1048-1166 | An accepted order request sends one message; at any later time a reply to it brings back the user, the order and the version of that request, and no other message of the run within a turn of the counter carries its id. |
| `WebSocketSteps.OrderRequests` | src/roq/binance/gateway/web_socket.cpp:1048-1166 | For every order request in every state: NotReady exactly if the stream is not ready, Rejected exactly if it is and there is a price to amend or an unknown template, and then nothing is sent; otherwise one message with method, user, order and version of the request. |
| `WebSocketSteps.OwnRequests` | src/roq/binance/gateway/web_socket.cpp:890-1000 | Logon, subscription, account and open orders are one message each, without an originator. |
| `WebSocketSteps.TradeRequests` | src/roq/binance/gateway/web_socket.cpp:1003-1046 | Trades take one message per symbol of the settings, the i-th for the i-th, if there is a lookback (the one for a restart counts until the first download has succeeded), and none otherwise. |
| `WebSocketSteps.StateIsHistory` | src/roq/binance/gateway/web_socket.cpp:195-217 | In every state of every run the stream is ready exactly if its last connection status said so, and the lookback of a restart applies exactly until a download of trades has succeeded. |
| `WebSocketRun.RunGrows` | src/roq/binance/gateway/web_socket.cpp:1055 | Messages and symbols are only ever added. |
| `WebSocketRun.SymbolsAreTouched` | src/roq/binance/gateway/web_socket.cpp:415-430 | The symbol set is exactly the symbols of orders placed while ready and of orders downloaded. |
| `WebSocketRun.CancelAllCoverage` | src/roq/binance/gateway/web_socket.cpp:1168-1228 | A cancel-all while ready sends one request and one FORWARDED acknowledgement for each touched symbol that matches the filter, and nothing else. |
| `WebSocket.Stream.CancelAllOrders` | src/roq/binance/gateway/web_socket.cpp:1168-1228 | The loop over the hashed set visits every symbol once, in some order, and skips those that do not match. |
| `WebSocket.Stream.PlaceOrder` | src/roq/binance/gateway/web_socket.cpp:1048-1084 | Not ready and unknown template are rejected without a message; the symbol is remembered before the template is looked up. |
| `WebSocket.Stream.AmendOrder` | src/roq/binance/gateway/web_socket.cpp:1086-1124 | A price is rejected; otherwise one message with the version of the request. |
| `StreamIds.BlocksDisjoint` | src/roq/binance/gateway/web_socket.cpp:136 | The 32-bit block of a stream is clear of the blocks of all earlier streams if and only if its id is at most 4294, each making fewer than a million requests. |
| `StreamIds.IdsOfStreamsDiffer` | src/roq/binance/gateway/web_socket.cpp:890-1228 | Over whole runs of two such streams no id is ever handed out by both. |
| `StreamIds.Blocks64` | src/roq/binance/gateway/market_data.cpp:111 | In 64 bits only a stream that exceeds its million reaches the numbers of another. |
| `Enumeration.AsMultiset` | src/roq/binance/gateway/web_socket.cpp:1197 | A loop over a hashed set that visits each element once sees exactly its elements. |
| `ControllerRun.SubscribedExactlyOnce` | src/roq/binance/gateway/market_data.cpp:199-221 | In every state of every run (symbol updates, connects, disconnects, queue drains in any order) a stream that is ready has subscribed, in messages sent on this connection or still queued, to each symbol of its slice exactly once on each of its channels, and to nothing else. |
| `ControllerRun.SubscribedByName` | src/roq/binance/gateway/market_data.cpp:497-516 | The same channel by channel: a ready stream has each symbol of its slice exactly once on bookTicker, once on depth@<frequency>ms, and on kline_1m exactly if time series are enabled; a primary one also once on trade with trade details and on aggTrade without, and once on miniTicker; a secondary one never on these three; no other channel has any symbol, and no symbol of another slice is on any. |
| `ControllerRun.SlicesCoverSymbols` | src/roq/binance/gateway/controller.cpp:260-293 | The symbol list is free of duplicates, the slices of the streams put together are the list, none is empty or exceeds the limit, and there is a secondary stream per slice exactly if so configured. |
| `ControllerRun.StreamIdsDistinct` | src/roq/binance/gateway/controller.cpp:44-83 | Stream ids are assigned contiguously from 1, and they are distinct if and only if at most 65536 streams have been created. |
| `ControllerStreams.StreamsCreated` | src/roq/binance/gateway/controller.cpp:44-100 | In every state of every run, by kind and name: one REST stream; one order-entry stream per account, a margin one as well unless it is a portfolio account or these are left out; one drop copy per account and kind exactly if there was a listen key of that mode, however often renewed; one market-data stream per slice and priority, which carries the id under which it was created. |
| `ControllerStreams.MessageNumbers` | src/roq/binance/gateway/market_data.cpp:518-532 | In every state of every run, the messages of a connection carry consecutive 64-bit numbers up to the last one drawn, from the block that begins a million times the id of the stream; numbers go on across connections, and no message is about no symbol at all. |
| `ControllerStreams.ReadyIsHistory` | src/roq/binance/gateway/market_data.cpp:205-221 | In every state of every run a market-data stream is ready if and only if its connection has become ready and has not been lost since, whatever symbols came in meanwhile. |
| `ControllerStreams.TicksDrain` | src/roq/binance/gateway/market_data.cpp:492-495 | The ticks of a ready stream send its queue from the front, as many messages as are let pass in all, in order, keep the rest, and touch no other stream. |
| `ControllerRun.RunSafe` | src/roq/binance/gateway/controller.cpp:130-144 | The joint invariant of controller, symbol list and streams over any run. |
| `ControllerRun.FeedExtends` | src/roq/binance/gateway/market_data.cpp:199-203 | New symbols reach a ready stream as exactly the new part of its slice; a stream that is not ready ignores them. |
| `ControllerRun.FeedDrains` | src/roq/binance/gateway/market_data.cpp:492-495 | Draining a prefix of the queue moves messages from queued to sent without loss. |
| `Controller.Gateway.OnSymbolsUpdate` | src/roq/binance/gateway/controller.cpp:260-270 | Append, create the missing streams, let every stream subscribe from the old length on. |
| `Controller.Gateway.EnsureSymbolSlices` | src/roq/binance/gateway/controller.cpp:274-293 | The two loops create streams up to the number of slices, primary before secondary. |
| `Controller.Gateway.OnSubscribe` | src/roq/binance/gateway/controller.cpp:130-144 | Known symbols are dropped, new ones are remembered and passed on, even if there are none. |
| `Controller.Gateway.OnExchangeInfo` | src/roq/binance/gateway/rest.cpp:468-495 | Discarded symbols are dropped, the others normalised and passed on if any of them is new. |
| `Controller.Gateway.OnListenKeyUpdate` | src/roq/binance/gateway/controller.cpp:221-256 | The first update of an account creates its drop copy under the next id; an update without a mode ends the process. |
| `Controller.Gateway.constructor` | src/roq/binance/gateway/controller.cpp:96-100 | REST first, then one order-entry stream per account, then the margin streams unless they are dropped. |
| `MarketData.Stream.SubscribeSlice` | src/roq/binance/gateway/market_data.cpp:497-516 | One message per channel of the stream, none for an empty slice; the channels by name are stated by ControllerRun.SubscribedByName. |
| `MarketData.Stream.PushMessage` | src/roq/binance/gateway/market_data.cpp:518-532 | The next number is drawn, and the printed text is queued. |
| `MarketData.Stream.OnDisconnected` | src/roq/binance/gateway/market_data.cpp:210-215 | What is queued and what was sent on the connection is gone. |
| `Symbols.SlicesPartition` | src/roq/binance/gateway/controller.cpp:262 | The slices in order are the list, none empty, none above the limit. |
| `Symbols.SliceExtends` | src/roq/binance/gateway/market_data.cpp:201 | After an append a slice is its old content followed by its part from the old length on. |
| `SubscribeMessage.PrintThenRead` | src/roq/binance/gateway/market_data.cpp:518-532 | Reading the printed array as JSON gives exactly one name per symbol, in order. |
| `SubscribeMessage.SubscribeThenParse` | src/roq/binance/protocol/json/market_stream_parser.cpp:32-48 | The parser takes the printed name back to the channel without its frequency, and to the original symbol if and only if that has no lower-case letter. |
| `SubscribeMessage.NameThenParse` | src/roq/binance/protocol/json/market_stream_parser.cpp:32-48 | The first at sign separates the symbol, the second one the frequency. |
| `Ascii.LowerThenUpper` | src/roq/binance/gateway/utils.hpp:12-16 | Lower-casing and upper-casing again is the identity on exactly the texts without lower-case letters. |
| `Listings.SharedStreams` | src/roq/binance/gateway/controller.cpp:130-144 | In every state of every run, no two listed symbols are subscribed to under names that mean the same stream, if and only if no two of them are equal up to case. |
| `Listings.ListedExactly` | src/roq/binance/gateway/rest.cpp:470-495 | In every state of every run a symbol is listed if and only if the exchange has listed it, up to its being lower-cased, without its being discarded, or a user has asked for it; and what is listed keeps its place in the list. |
| `Listings.LowerCaseSuffices` | src/roq/binance/gateway/rest.cpp:468-495 | If users ask in lower case, as the listing of the exchange is kept, no stream is shared. |
| `Listings.TwoCases` | src/roq/binance/gateway/controller.cpp:130-144 | A user who asks for a symbol in two cases gets it twice. |
| `Delivery.SubscribeThenDeliver` | src/roq/binance/gateway/market_data.cpp:497-532 | End to end: the data message for a name that was subscribed to reaches the handler of its channel, with its members in any order; the candles are subscribed to but have no handler, so their data is skipped if unknown events are allowed and ends the process if not. |
| `Delivery.StreamHandlers` | src/roq/binance/protocol/json/market_stream_parser.cpp:95-132 | For every symbol, every stream name and every frequency, with the members in any order: aggTrade, trade, miniTicker, bookTicker and depth reach their handlers, depth5, depth10 and depth20 the snapshot handler with the symbol in upper case; another name is skipped if unknown events are allowed, and otherwise, or if the name is empty, the process ends. |
| `Delivery.StreamsWithoutSymbol` | src/roq/binance/protocol/json/market_stream_parser.cpp:44-47 | Of the names that begin with an exclamation mark !serverShutdown reaches its handler, the others are skipped or end the process. |
| `Delivery.NoStream` | src/roq/binance/protocol/json/market_stream_parser.cpp:44-49 | A name without an at sign that does not begin with an exclamation mark ends the process, with the members in any order. |
| `Delivery.ChannelIsKnown` | src/roq/binance/protocol/json/stream.json:3-34 | The parser knows every channel that a stream subscribes to, except the candles. |
| `MarketStreamOrder.OutcomesOfOrders` | src/roq/binance/protocol/json/market_stream_parser.cpp:53-137 | For every message, also malformed or contradictory ones: the outcomes that its orders have are exactly those that its members allow as a set, namely what some member triggers in a context made of one of the ids and one of the streams that they tell, or the end of the process where none does. |
| `MarketStreamOrder.OrderCondition` | src/roq/binance/protocol/json/market_stream_parser.cpp:53-137 | For every message, all orders have the same outcome if and only if its members allow one outcome only. |
| `MarketStreamOrder.RouteByMembers` | src/roq/binance/protocol/json/market_stream_parser.cpp:53-137 | The outcome of any message is one that its members allow; two passes always suffice. |
| `MarketStreamOrder.OrderDoesNotMatter` | src/roq/binance/protocol/json/market_stream_parser.cpp:53-137 | If the order does not matter, repeating members does not matter either. |
| `MarketStreamOrder.MakeDecisive` | src/roq/binance/protocol/json/market_stream_parser.cpp:69-132 | Any member that triggers in an allowed context, also one that throws or ends the process, can be made the one that decides by reordering. |
| `MarketStreamOrder.CommonForms` | src/roq/binance/protocol/json/market_stream_parser.cpp:69-132 | Id with result, id with error, and stream with data, plus unknown members, make the one handler call they should in any order. |
| `MarketStreamOrder.TextId` | src/roq/binance/protocol/json/market_stream_parser.cpp:90-92 | A message whose order matters although it does not contradict itself: data of a stream with an id that is not a number. |
| `MarketStreamParser.Dispatch` | src/roq/binance/protocol/json/market_stream_parser.cpp:53-137 | The nested loop with its three variables. |
| `UpdateFilter.StoredIsGreatest` | src/roq/binance/gateway/shared.hpp:60-74 | Over any interleaving of streams and symbols the stored id of a symbol on a channel is the greatest of zero and all ids reported for it. |
| `UpdateFilter.AcceptedAreMaxima` | src/roq/binance/gateway/shared.hpp:60-74 | Exactly the non-strict left-to-right maxima are accepted. |
| `UpdateFilter.AcceptedNeverFall` | src/roq/binance/gateway/market_data.cpp:376-420 | An accepted update is not older than any earlier one of its symbol. |
| `UpdateFilter.SymbolsIndependent` | src/roq/binance/gateway/shared.cpp:36-44 | An update is accepted or dropped as if the updates of other symbols and of the other channel had not been there. |
| `UpdateFilter.MergeDoesNotMatter` | src/roq/binance/gateway/market_data.cpp:376-420 | Histories with the same updates in any order and number leave the same ids, as when a secondary stream repeats the primary one. |
| `UpdateFilter.Shared.GetInstrument` | src/roq/binance/gateway/shared.cpp:36-44 | An instrument is entered on a miss and found otherwise. |
| `UpdateFilter.Shared.TobUpdate` | src/roq/binance/gateway/shared.hpp:60-66 | Compare, then overwrite. |
| `UpdateFilter.Shared.MbpUpdate` | src/roq/binance/gateway/shared.hpp:68-74 | Compare, then overwrite. |
| `Fields.QueryRoundTrip` | src/roq/binance/protocol/json/encoder.cpp:201-290 | A printed query is read back as it was, for all values free of the separator. |
| `Fields.JsonRoundTrip` | src/roq/binance/protocol/json/encoder.cpp:66-182 | A printed object is read back as it was, texts as texts and numbers as numbers, for all values that do not contain what ends them. |
| `Fields.NamesOrdered` | src/roq/binance/protocol/json/encoder.cpp:66-310 | The parameter names are distinct and in the order of the keys. |
| `EncoderLaws.QueryReceived` | src/roq/binance/protocol/json/encoder.cpp:201-310 | For all combinations of optional fields and all free texts without the separator, the receiver finds under each name of a query the value that was meant, or nothing if none was. |
| `EncoderLaws.ObjectReceived` | src/roq/binance/protocol/json/encoder.cpp:66-182 | The same for objects; numbers arrive as numbers. |
| `EncoderMeaning.NewOrderUrlReads` | src/roq/binance/protocol/json/encoder.cpp:201-250 | What the receiver of a REST order finds under each literal name, from the fields of the order: isIsolated only for isolated margin, newClientOrderId, price and stopPrice only if given, quantity, recvWindow, selfTradePreventionMode, sideEffectType, side, symbol, timestamp, timeInForce and type in the words of the exchange; and nothing under any other name. |
| `EncoderMeaning.PlaceOrderJsonReads` | src/roq/binance/protocol/json/encoder.cpp:66-110 | The same for an order over the web socket, without what is about margin; recvWindow and timestamp are numbers. |
| `EncoderMeaning.AmendOrderJsonReads` | src/roq/binance/protocol/json/encoder.cpp:112-148 | newClientOrderId is the id of this request, origClientOrderId that of the request to be amended, orderId the id of the exchange as a number if known, newQty the quantity; symbol, recvWindow, timestamp; nothing else. |
| `EncoderMeaning.CancelOrderJsonReads` | src/roq/binance/protocol/json/encoder.cpp:150-182 | newClientOrderId is the id of this request, origClientOrderId that of the request to be cancelled, orderId the id of the exchange as a number if known; cancelRestrictions if any; symbol, recvWindow, timestamp; nothing else. |
| `EncoderMeaning.CancelOrderUrlReads` | src/roq/binance/protocol/json/encoder.cpp:252-284 | Over REST exactly one of orderId (the id of the exchange) and origClientOrderId (the id of the client), the former if it is known; isIsolated only for isolated margin; the rest as above. |
| `EncoderMeaning.CancelAllUrlReads` | src/roq/binance/protocol/json/encoder.cpp:288-310 | isIsolated is TRUE for isolated and FALSE for cross margin and absent otherwise; symbol, recvWindow, timestamp; nothing else. |
| `EncoderMeaning.MyTradesUrlReads` | src/roq/binance/protocol/json/encoder.cpp:186-199 | limit, startTime (now less the lookback, in milliseconds) and symbol; nothing else. |
| `EncoderMeaning.MillisecondsTruncate` | src/roq/binance/protocol/json/encoder.cpp:188 | The start time is truncated towards zero. |
| `EncoderLaws.KeysAscend` | src/roq/binance/protocol/json/encoder.cpp:66-310 | The names ascend alphabetically exactly in new orders, web-socket cancellations, trade queries, and REST cancellations without restrictions; never in amendments and cancel-alls. |
| `EncoderLaws.KeysDistinct` | src/roq/binance/protocol/json/encoder.cpp:66-310 | No encoder sends a name twice. |
| `EncoderLaws.EncodersAgree` | src/roq/binance/protocol/json/encoder.cpp:201-250 | The REST and the web-socket encoder of new orders send the same parameters in the same order once isIsolated and sideEffectType are left out. |
| `EncoderLaws.OrderReceived` | src/roq/binance/protocol/json/encoder.cpp:25-60 | From either encoding the receiver reads a type and a side that map back to those of the order, and the prices, each only if given. |
| `EncoderLaws.TypeSurvives` | src/roq/binance/protocol/json/map.cpp:62-87 | The outbound type of every order maps back to its order type, whatever its stop price and instructions. |
| `EncoderLaws.TimeInForceSurvives` | src/roq/binance/protocol/json/map.cpp:317-352 | A time in force is sent if and only if the order is neither a market order nor post-only and the exchange has it; it then maps back unchanged. |
| `Encoder.EncodeNewOrderUrl` | src/roq/binance/protocol/json/encoder.cpp:201-250 | The pieces appended to the reused buffer are the query of the listed parameters. |
| `Encoder.EncodePlaceOrderJson` | src/roq/binance/protocol/json/encoder.cpp:66-110 | The pieces are the object of the listed members. |
| `Encoder.EncodeAmendOrderJson` | src/roq/binance/protocol/json/encoder.cpp:112-148 | A price is rejected with the buffer untouched; otherwise the object of the listed members. |
| `Encoder.EncodeCancelOrderJson` | src/roq/binance/protocol/json/encoder.cpp:150-182 | The pieces are the object of the listed members; what the exchange reads from it is stated by EncoderMeaning.CancelOrderJsonReads. |
| `Encoder.EncodeCancelOrderUrl` | src/roq/binance/protocol/json/encoder.cpp:252-284 | The query names the exchange's order id if there is one, else the client's. |
| `Encoder.EncodeCancelAllUrl` | src/roq/binance/protocol/json/encoder.cpp:288-310 | Isolated and cross are told apart by isIsolated, which is absent for portfolio. |
| `Encoder.EncodeMyTradesUrl` | src/roq/binance/protocol/json/encoder.cpp:186-199 | Limit, start time (truncated to milliseconds) and symbol. |
| `EncoderSample.Printed` | test/json_encoder.cpp:106-126 | Anchor, not a result: the text of the repository example of a limit order is exactly what that order is printed as, which fixes names, quotes and numbers. |
| `CancelAll.CancelAllCovers` | src/roq/binance/gateway/order_entry_margin.cpp:1251-1321 | A REST cancel-all while ready sends, for each symbol seen that matches and no other, one request (portfolio) or one isolated and one cross request (margin), and one FORWARDED acknowledgement. |
| `CancelAll.DeleteReceived` | src/roq/binance/gateway/order_entry_margin.cpp:1284-1316 | What the exchange reads from each request under the literal names: its symbol, which positions are meant, window and time; nothing else. |
| `CancelAll.SymbolsAreSeen` | src/roq/binance/gateway/order_entry_portfolio.cpp:525-532 | The symbol set is exactly the symbols of orders placed while ready and of orders downloaded. |
| `CancelAll.Verdicts` | src/roq/binance/gateway/order_entry_portfolio.cpp:692-701 | For every event in every state: NotReady exactly for requests of users while the stream is not ready, and then nothing changes; Rejected exactly for a new order with an unknown template; and nothing but a cancel-all sends or acknowledges anything. |
| `CancelAll.OrderEntry.CancelAllOpenOrders` | src/roq/binance/gateway/order_entry_portfolio.cpp:950-1003 | The loop over the hashed set, with the filter. |
| `CancelAll.OrderEntry.CreateOrder` | src/roq/binance/gateway/order_entry_portfolio.cpp:692-701 | The symbol is remembered before the template is looked up. |
| `Fills.Acknowledge` | src/roq/binance/gateway/web_socket.cpp:557-568 | Price times quantity is the money spent, and the order of the fills does not matter; with positive quantities there is a last price exactly if there is a fill, it lies within the prices of the fills, and if the executed quantity is the sum of the fills, the average price equals it exactly if the quote quantity is their sum. |
| `Fills.Aggregate` | src/roq/binance/gateway/order_entry_margin.cpp:1050-1061 | The loop computes both sums; the prices are ratios, absent if there is nothing to divide by. |
| `Fills.PriceBetween` | src/roq/binance/gateway/order_entry_portfolio.cpp:762-773 | The price lies between any bounds of the prices of the fills. |
| `Fills.OrderOfFills` | src/roq/binance/gateway/order_entry_portfolio.cpp:762-773 | Both sums are the same for every permutation. |
| `Fills.Combine` | src/roq/binance/gateway/order_entry_portfolio.cpp:762-773 | Both sums add up over lists of fills put together. |
| `Throttle.ClosedForm` | src/roq/binance/tools/throttle.cpp:88-110 | After any history the suspension ends at the latest of ten minutes after each 403 and five seconds after the first refusal if that was a 429; it is zero if nothing was refused; times in nanoseconds. |
| `Throttle.NeverShortened` | src/roq/binance/tools/throttle.cpp:88-110 | The suspension never ends earlier than it did; a 429 does not shorten the block of a 403; a throttle that is switched off suspends nothing. |
| `Throttle.OnlyFirst429` | src/roq/binance/tools/throttle.cpp:101-107 | A 429 has an effect if and only if it is the first refusal ever; later ones are ignored even when the suspension is over. |
| `Throttle.RequestThrottle.MessageEnd` | src/roq/binance/tools/throttle.cpp:88-110 | One step of the state machine; a disabled throttle does nothing. |

## Left out

- Sockets, HTTP and TLS clients, timers, logging, metrics, settings, bridges and main functions: wiring only.
- Rate limits (`update_rate_limits`) and the weight headers of the throttle: tables that are copied and reported, without a decision.
- `suspend_for` and Retry-After: they act on the closed connection only.
- Order-book reconstruction behind the update filter: the sequencer is closed code.
- Retry and timing of the download machine, and progress of the drop-copy download: closed code, and see the gate above.
- Ed25519 and HMAC signatures, URL percent-encoding and decimal formatting: foreign or closed code.
- Rounding, and the tolerance of the comparisons with zero: fills are added up over exact numbers.
- The listen-key download of the portfolio stream and the refresh of listen keys: a single request that reports to the controller, which is modelled.
- The first-download flags of the REST trade downloads: they only choose a lookback that is passed on.
- User-stream events, trade, candle and statistics handlers: field-by-field copies into updates.
- WSAPIParser.Dispatch: an `id` that is not a text is an exception; how the message text is split into members is not modelled.
- Controller.Gateway.OnListenKeyUpdate: the account is taken to exist; handing the key on to an existing margin drop copy is part of MarginRun.
- MarginRun.SpotStarts: counts the requests for trades of a margin account without telling their symbols; no reachable state asks for them.
- UpdateFilter.Shared.GetInstrument: returns the instrument as a value; writing through the reference is modelled by the two update methods on the table.
- The copies of `process_response` in the margin and the REST stream, and the copies of the fill loop: the same code, modelled once; the one in `rest.cpp` has no case for exceptions of the order-management system.
- Encoder.EncodeNewOrderUrl: the printed pieces are appended one parameter at a time, where the source sometimes prints several in one call.
