# NautilusTrader venue adapters: data-client core in Dafny

This project models the data side of three NautilusTrader venue adapters and proves
properties of the model.

- **Betfair data client** (`BetfairData`, `BetfairSubscription`, `BetfairRouting`,
  `BetfairTypes`). It covers:
  - the subscription state machine: UNSUBSCRIBED, PENDING_STARTUP, RUNNING
  - the subscribed market and instrument sets
  - the delayed-subscribe and heartbeat tasks the client schedules on its event loop
  - the routing of parsed market-change records to the data engine (strict and
    non-strict handling)
  - the stream-health warnings
  - status-message handling
  - the `on_market_update` dispatch on the decoded frame kind
- **Binance order-book subscription and WebSocket dispatch** (`BinanceBook`,
  `BinanceData`). It covers:
  - the checks and defaults for book type, update speed and depth
  - the per-instrument delta buffer that holds diffs until a snapshot arrives, and its
    replay against the snapshot's sequence number
  - the instrument-id cache
  - the stream-name handler table, and dispatch through it: every matching handler runs,
    the first exception stops it, and unmatched streams are logged
  - the five concrete handlers and the two that raise `NotImplementedError`
  - the clamp of request limits
- **Betfair utilities** (`BetfairUtil`):
  - `flatten_tree`: flattening a typed navigation tree into one record per root-to-leaf
    path, with filters applied at the root
  - `chunk`
  - `hash_market_trade`
- **Interactive Brokers parsing tables** (`IbParsing`):
  - the depth-operation and side tables
  - `bar_spec_to_bar_size`
  - `timedelta_to_duration_str`

`Outcomes` holds the Python exception kinds and the `Outcome`/`Result` wrappers.
`Strings` holds decimal rendering and parsing, ASCII lower-casing, substring search and
splitting.

## Modelling choices

Both clients are Dafny `class`es whose fields are the Python attributes they update.
Each method is proved against pure functions of the old state:

- `BetfairDataClient.State()` is a `BetfairSubscription.Coordinator` value.
- `BinanceDataClient.View()` is a `BinanceBook.Feed` value.

The lemmas about those functions carry the properties.

An `async` method that awaits in the middle is split at the await:

- A task the Betfair client schedules with `create_task` becomes an element of a pending
  `tasks` sequence. `RunTask(k)` runs one of them to completion, in any order the event
  loop chooses.
- The Binance partial-depth subscription is split in two. `SubscribeOrderBookBegin` runs
  up to the REST snapshot request and records the instrument in `awaitingSnapshot`.
  `CompleteSnapshot(k, seq)` is the rest of the coroutine.

Messages arrive already decoded:

- A Betfair frame is an `Option<Frame>`; `None` is a frame that fails to decode.
- The Betfair parser's output is a sequence of tagged `ParsedRecord`s.
- A Binance message is a `RawMessage` with its stream name, symbol and body.

Everything handed to `_handle_data` is appended to an `emitted`/`out` sequence. Log calls
that matter to behaviour (warnings and errors) are appended to `logs`. A Python exception
is an `Outcome.Raised(kind)` result.

Where the Python reads a local that was never bound, the model says so:

- In the Binance diff-depth branch, `snapshot` is never assigned. `ReplayBuffer(id, None)`
  raises `UnboundLocalError` exactly when the buffer holds something.
- `SubscribeOrderBookBegin` proves that this cannot happen. The buffer is installed empty
  at line 323, and nothing awaits before the replay.

## Model

| member | source | states |
|---|---|---|
| BetfairSubscription.Find | nautilus_trader/adapters/betfair/data.py:206 | the provider lookup returns an instrument with the asked id from the directory, and returns nothing exactly when no directory entry has that id |
| BetfairSubscription.Subscribe | nautilus_trader/adapters/betfair/data.py:208-226 | a market already subscribed leaves everything as it was; a new market adds both its market id and the instrument id; from UNSUBSCRIBED it schedules a 5 s delayed subscribe and moves to PENDING_STARTUP; PENDING_STARTUP schedules nothing; RUNNING schedules a 0 s delayed subscribe; nothing is sent |
| BetfairSubscription.SubscribeTo | nautilus_trader/adapters/betfair/data.py:204-213 | an id the provider cannot find raises AttributeError (the `None.market_id` access) and changes nothing; a found one behaves as `Subscribe` |
| BetfairSubscription.Fire | nautilus_trader/adapters/betfair/data.py:232-237 | running a scheduled task removes exactly that task (as a multiset) and keeps status and sets; a delayed subscribe sends one subscription message with the full current market set; the heartbeat task sends three heartbeats |
| BetfairSubscription.Reset | nautilus_trader/adapters/betfair/data.py:159-164 | a connected client keeps its state; otherwise only the subscribed instrument ids are cleared and the market ids and status survive |
| BetfairSubscription.ScheduleHeartbeat | nautilus_trader/adapters/betfair/data.py:141-143 | connecting schedules exactly one post-connect heartbeat task and changes nothing else |
| BetfairSubscription.SubscribeKeepsStartup | nautilus_trader/adapters/betfair/data.py:215-226 | while not running, every subscription keeps the startup invariant: nothing sent, status is PENDING_STARTUP iff some market is subscribed, and then exactly one 5 s task is pending |
| BetfairSubscription.StartupBatch | nautilus_trader/adapters/betfair/data.py:215-222 | a batch of subscriptions made before the first send leaves the client in the startup state with exactly the markets of the instruments found |
| BetfairSubscription.BatchSentOnce | nautilus_trader/adapters/betfair/data.py:215-237 | however many instruments a strategy batch subscribes before startup, one delayed task is pending, and running it sends one subscription message naming every market of the batch |
| BetfairSubscription.SubscribeAllGrows | nautilus_trader/adapters/betfair/data.py:208-226 | subscribing never removes a market or instrument, never moves the status backwards, only appends tasks, and sends nothing |
| BetfairSubscription.ApplyKeepsConsistent | nautilus_trader/adapters/betfair/data.py:159-261 | each client operation keeps every subscribed instrument's market subscribed, never shrinks the market set and never enters RUNNING |
| BetfairSubscription.RunKeepsConsistent | nautilus_trader/adapters/betfair/data.py:159-261 | over any sequence of subscribe, task, reset, connect and unsubscribe operations the invariant holds, markets only grow, and a client not RUNNING never becomes RUNNING, since no code in the client assigns RUNNING |
| BetfairRouting.RouteOne | nautilus_trader/adapters/betfair/data.py:284-307 | a record raises exactly when it is of no known kind; it is dropped exactly when strict handling is on and it carries an instrument id outside the subscribed set; it is logged exactly when it is an event; forwarded data is the record itself |
| BetfairRouting.RouteAppend | nautilus_trader/adapters/betfair/data.py:283-307 | routing a concatenation is routing the first part and then, unless it raised, the second: emissions and logs keep record order, and nothing after an exception is handled |
| BetfairRouting.RouteRaises | nautilus_trader/adapters/betfair/data.py:306-307 | a batch raises exactly when it contains an unrecognised record, and the error is RuntimeError |
| BetfairRouting.StrictSound | nautilus_trader/adapters/betfair/data.py:293-301 | with strict handling, every forwarded record with an instrument id is for a subscribed instrument |
| BetfairRouting.EmittedFromRecords | nautilus_trader/adapters/betfair/data.py:285-301 | everything emitted is either a generic wrapper of a starting-price or BSP-delta record from the batch, tagged with that record's instrument id, or a data record of the batch |
| BetfairRouting.RouteComplete | nautilus_trader/adapters/betfair/data.py:283-305 | every record before the first unrecognised one is handled: starting prices and BSP deltas are wrapped and emitted, data that is not filtered is forwarded, events are logged |
| BetfairRouting.NonStrictForwardsAll | nautilus_trader/adapters/betfair/data.py:292-301 | without strict handling every data record before the first failure is forwarded, whatever is subscribed |
| BetfairRouting.GenericIndependentOfFilter | nautilus_trader/adapters/betfair/data.py:285-291 | the generic wrappers emitted, the logs and the error do not depend on the strict flag or on the subscribed set |
| BetfairRouting.ConflationWarningsCount | nautilus_trader/adapters/betfair/data.py:313-317 | one conflation warning per conflated market change, and no other entry |
| BetfairRouting.HealthWarningsShape | nautilus_trader/adapters/betfair/data.py:309-317 | the health check logs one "stream unhealthy" warning exactly when the stream is unreliable, plus one conflation warning per conflated change |
| BetfairData.InstrumentUpdates | nautilus_trader/adapters/betfair/data.py:132-135 | each provider instrument is handed to the data engine once, in provider order |
| BetfairData.BetfairDataClient.constructor | nautilus_trader/adapters/betfair/data.py:78-115 | a new client is UNSUBSCRIBED with empty subscription sets, no tasks, nothing sent or emitted, and it keeps the provider it is given (its directory) and its strict flag; the default of no provider is not modelled |
| BetfairData.BetfairDataClient.HandleInstruments | nautilus_trader/adapters/betfair/data.py:132-135 | the loop over the provider's instruments emits exactly `InstrumentUpdates(directory)` and changes nothing else |
| BetfairData.BetfairDataClient.Connect | nautilus_trader/adapters/betfair/data.py:121-143 | connects the HTTP client, then the stream; loads instruments only when the provider is empty; emits every instrument; schedules the heartbeat task; the subscription invariant holds |
| BetfairData.BetfairDataClient.Disconnect | nautilus_trader/adapters/betfair/data.py:150-157 | closes the stream, then the HTTP client, and leaves the subscription state alone |
| BetfairData.BetfairDataClient.Reset | nautilus_trader/adapters/betfair/data.py:159-164 | the new state is `BetfairSubscription.Reset` of the old one; a connected client logs an error instead |
| BetfairData.BetfairDataClient.Dispose | nautilus_trader/adapters/betfair/data.py:166-169 | a connected client logs an error; nothing else changes either way |
| BetfairData.BetfairDataClient.SubscribeOrderBookDeltas | nautilus_trader/adapters/betfair/data.py:195-230 | outcome and new state are `SubscribeTo` of the old state; a duplicate market logs the "already subscribed" warning; the invariant is kept |
| BetfairData.BetfairDataClient.AddMarket | nautilus_trader/adapters/betfair/data.py:218-226 | for a market not yet subscribed, the new subscription state is `Subscribe` of the old one |
| BetfairData.BetfairDataClient.RunTask | nautilus_trader/adapters/betfair/data.py:145-148 | running a pending task (the delayed subscribe, or the three-beat heartbeat loop) yields `Fire` of the old state and keeps the invariant |
| BetfairData.BetfairDataClient.SubscribeInstrument | nautilus_trader/adapters/betfair/data.py:242-244 | re-emits every provider instrument and changes no subscription |
| BetfairData.BetfairDataClient.UnsubscribeOrderBookSnapshots | nautilus_trader/adapters/betfair/data.py:252-256 | only logs that unsubscribing is not supported; subscriptions are untouched |
| BetfairData.BetfairDataClient.UnsubscribeOrderBookDeltas | nautilus_trader/adapters/betfair/data.py:258-261 | only logs that unsubscribing is not supported; subscriptions are untouched |
| BetfairData.BetfairDataClient.CheckStreamUnhealthy | nautilus_trader/adapters/betfair/data.py:309-317 | appends the health warnings and degrades the client exactly when the stream is unreliable |
| BetfairData.BetfairDataClient.HandleRecord | nautilus_trader/adapters/betfair/data.py:284-307 | one pass of the record loop emits, drops, logs or fails exactly as `RouteOne` decides for that record, and touches nothing else |
| BetfairData.BetfairDataClient.RouteRecords | nautilus_trader/adapters/betfair/data.py:283-307 | the loop over parsed records emits, logs and raises exactly as `Route` over the batch, reading the subscribed set and strict flag as they stand |
| BetfairData.BetfairDataClient.OnMcm | nautilus_trader/adapters/betfair/data.py:280-307 | health warnings come first, then the routed records' emissions, logs and error |
| BetfairData.BetfairDataClient.HandleStatusMessage | nautilus_trader/adapters/betfair/data.py:319-323 | a FAILURE status with the connection closed logs an error and raises RuntimeError; every other status does nothing |
| BetfairData.BetfairDataClient.OnMarketUpdate | nautilus_trader/adapters/betfair/data.py:269-278 | an undecodable frame raises a decode error, a connection frame does nothing, a status frame is handled as a status, a market change is checked and routed, any other frame raises RuntimeError; subscriptions are never touched |
| BinanceBook.ResolveSpeed | nautilus_trader/adapters/binance/common/data.py:304-310 | a given update speed is kept; a missing one defaults to 0 ms for futures and 100 ms for spot, both valid speeds for the account type |
| BinanceBook.PlanBookSubscription | nautilus_trader/adapters/binance/common/data.py:296-352 | L3 is rejected exactly when asked for; an invalid speed is rejected exactly when the resolved speed is not in the account's list; a depth in 1..20 other than 5, 10, 20 is rejected after the buffer is installed; 5, 10, 20 subscribe the partial stream; any other depth subscribes the diff stream |
| BinanceBook.NewerMembers | nautilus_trader/adapters/binance/common/data.py:354-358 | the replayed deltas are exactly the buffered ones whose sequence is beyond the snapshot's |
| BinanceBook.NewerAppend | nautilus_trader/adapters/binance/common/data.py:354-358 | the replay filter keeps buffer order: filtering a concatenation concatenates the filtered parts |
| BinanceBook.NewerIsFiltered | nautilus_trader/adapters/binance/common/data.py:354-358 | nothing is invented by the replay; all deltas newer than the snapshot replay the whole buffer, all older ones replay nothing |
| BinanceBook.ClampLimit | nautilus_trader/adapters/binance/common/data.py:467-468 | a limit of 0 or above 1000 becomes 1000, any other is kept, so a non-negative limit ends in 1..1000; the bar request at lines 508-509 repeats the same rule |
| BinanceBook.CachedId | nautilus_trader/adapters/binance/common/data.py:572-581 | a cached symbol returns its cached id unchanged; a new one is added once, with the id built from the symbol; no entry is ever replaced |
| BinanceBook.Handle | nautilus_trader/adapters/binance/common/data.py:603-659 | the partial-depth and trade handlers raise NotImplementedError and no other handler does; a raising handler changes nothing; a handler emits at most one item, caches at most its message's symbol and never adds or removes a buffer |
| BinanceBook.OpenKlineIgnored | nautilus_trader/adapters/binance/common/data.py:634-637 | a kline that is not closed yet is ignored without touching the cache |
| BinanceBook.DiffUpdateBuffered | nautilus_trader/adapters/binance/common/data.py:603-614 | a diff update for an instrument with a buffer is appended to that buffer and not emitted; otherwise it is emitted at once |
| BinanceBook.DispatchRunsMatching | nautilus_trader/adapters/binance/common/data.py:590-595 | the dispatch loop runs exactly the handlers whose key occurs in the stream name, in table order, stopping at the first exception |
| BinanceBook.DispatchStops | nautilus_trader/adapters/binance/common/data.py:590-600 | once a handler has raised, later table entries change nothing |
| BinanceBook.DispatchHandled | nautilus_trader/adapters/binance/common/data.py:591-596 | when no handler raised, the message counts as handled exactly when some table key occurs in the stream name |
| BinanceBook.HandleWsMessage | nautilus_trader/adapters/binance/common/data.py:585-601 | a message whose wrapper cannot be decoded raises a decode error with no effect; otherwise nothing escapes, the state is the dispatch loop's, a handler exception is the one error logged, an unmatched stream logs one "unrecognized" error, and a handled message logs nothing |
| BinanceBook.WsMessageLogs | nautilus_trader/adapters/binance/common/data.py:589-601 | the matching handlers run in table order until one raises; that exception is the single error logged, an unmatched stream logs one "unrecognized" error, and a handled message without an exception logs nothing |
| BinanceBook.UnmatchedLogged | nautilus_trader/adapters/binance/common/data.py:596-599 | a stream no key matches changes nothing and logs exactly one "unrecognized" error naming the stream |
| BinanceBook.DispatchKeepsCache | nautilus_trader/adapters/binance/common/data.py:572-601 | a dispatch keeps the id cache consistent, caches at most the message's symbol, only appends output and never adds or removes a buffer |
| BinanceData.BinanceDataClient.constructor | nautilus_trader/adapters/binance/common/data.py:152-170 | a new client has empty hot caches, no output, no subscriptions and no pending snapshot |
| BinanceData.BinanceDataClient.ReplayBuffer | nautilus_trader/adapters/binance/common/data.py:354-358 | the instrument's buffer is popped; with a snapshot, exactly the newer buffered deltas are emitted in order; with no snapshot bound, it raises UnboundLocalError exactly when the buffer is non-empty |
| BinanceData.BinanceDataClient.SubscribeOrderBookBegin | nautilus_trader/adapters/binance/common/data.py:289-352 | logs the rejection, installs the buffer, subscribes the stream and queues the snapshot request exactly as `PlanBookSubscription` decides; the diff path ends with its buffer popped and nothing emitted |
| BinanceData.BinanceDataClient.CompleteSnapshot | nautilus_trader/adapters/binance/common/data.py:339-358 | when the snapshot arrives it is emitted, followed by the buffered deltas newer than it, and the buffer is removed |
| BinanceData.BinanceDataClient.GetCachedInstrumentId | nautilus_trader/adapters/binance/common/data.py:572-581 | returns the id for the symbol and updates the cache as `CachedId` says |
| BinanceData.BinanceDataClient.HandleBookDiffUpdate | nautilus_trader/adapters/binance/common/data.py:603-614 | buffers or emits the deltas as `Handle` says for the diff handler |
| BinanceData.BinanceDataClient.HandleBookTicker | nautilus_trader/adapters/binance/common/data.py:616-623 | emits one quote for the cached instrument, as `Handle` says |
| BinanceData.BinanceDataClient.HandleTicker | nautilus_trader/adapters/binance/common/data.py:625-632 | emits one ticker for the cached instrument, as `Handle` says |
| BinanceData.BinanceDataClient.HandleKline | nautilus_trader/adapters/binance/common/data.py:634-644 | emits a bar only for a closed kline, as `Handle` says |
| BinanceData.BinanceDataClient.HandleAggTrade | nautilus_trader/adapters/binance/common/data.py:652-659 | emits one trade tick for the cached instrument, as `Handle` says |
| BinanceData.BinanceDataClient.CallHandler | nautilus_trader/adapters/binance/common/data.py:646-650 | calling a table entry has the effect of `Handle`, including the NotImplementedError of the partial and trade handlers |
| BinanceData.BinanceDataClient.HandleWsMessage | nautilus_trader/adapters/binance/common/data.py:585-601 | the loop over the handler table leaves the client in the state `BinanceBook.HandleWsMessage` gives, and its logs are that function's log entries |
| BetfairUtil.NodeType | nautilus_trader/adapters/betfair/util.py:45 | a node without a "type" raises, a non-string type raises, and otherwise the type is lower-cased |
| BetfairUtil.NodeData | nautilus_trader/adapters/betfair/util.py:46 | every entry except "type" and "children" appears under the key prefixed by the node type, and no other key appears |
| BetfairUtil.MergeAll | nautilus_trader/adapters/betfair/util.py:54 | each yielded child record is merged over the parent's data, and the child's entries win |
| BetfairUtil.FilterMatch | nautilus_trader/adapters/betfair/util.py:36-42 | a string filter tests equality, a list filter tests membership, and any other filter raises TypeError |
| BetfairUtil.PassesIff | nautilus_trader/adapters/betfair/util.py:51 | a record passes exactly when every filter key is present in it and every filter matches its value |
| BetfairUtil.KeepAppend | nautilus_trader/adapters/betfair/util.py:49-52 | filtering records is compositional over concatenation and keeps their order; the first exception wins |
| BetfairUtil.KeepNoFilters | nautilus_trader/adapters/betfair/util.py:51 | with no filters every record is kept |
| BetfairUtil.KeepSound | nautilus_trader/adapters/betfair/util.py:49-52 | when no filter raises, the kept records are exactly the records that pass |
| BetfairUtil.AppendPassing | nautilus_trader/adapters/betfair/util.py:49-52 | the root's inner loop appends exactly the records `Keep` keeps, in order, or stops with the first filter exception |
| BetfairUtil.FlattenTree | nautilus_trader/adapters/betfair/util.py:27-59 | the results list the root's loop builds, or the first exception, equals `Flattened` of the tree and filters |
| BetfairUtil.FlattenIsPathRecords | nautilus_trader/adapters/betfair/util.py:44-56 | on a well-typed tree the generator yields, in order, one merged record per root-to-leaf path, and raises nothing |
| BetfairUtil.FlattenChildrenIsPathRecords | nautilus_trader/adapters/betfair/util.py:47-54 | the children loop of an inner node yields the merged records of the paths through its remaining children |
| BetfairUtil.CollectIsKeep | nautilus_trader/adapters/betfair/util.py:47-52 | the root's loop keeps, in order, exactly the path records below it that pass the filters |
| BetfairUtil.FlattenedIsFilteredPaths | nautilus_trader/adapters/betfair/util.py:47-59 | `flatten_tree` returns the filtered path records of the root's children, and an empty list for a root without children |
| BetfairUtil.FlattenedWithoutFilters | nautilus_trader/adapters/betfair/util.py:50-52 | without filters it returns every root-to-leaf record |
| BetfairUtil.PathsShape | nautilus_trader/adapters/betfair/util.py:47-56 | every path starts at the node and ends at a leaf |
| BetfairUtil.DeepestEntryWins | nautilus_trader/adapters/betfair/util.py:54 | in a path's record, a key takes the value of the deepest node on the path that has it |
| BetfairUtil.Chunk | nautilus_trader/adapters/betfair/util.py:62-67 | a step of 0 raises ValueError, a negative step yields nothing, and a positive step yields non-empty chunks of at most n that join back to the list |
| BetfairUtil.ChunksConcat | nautilus_trader/adapters/betfair/util.py:66-67 | joining the chunks in order gives back the list |
| BetfairUtil.ChunksShape | nautilus_trader/adapters/betfair/util.py:66-67 | there are ceil(len / n) chunks, all of length n except a non-empty last one |
| BetfairUtil.HashMarketTradeMillis | nautilus_trader/adapters/betfair/util.py:70-71 | the key is the timestamp without its last six digits, then price, then volume; a timestamp of fewer than seven digits contributes nothing |
| IbParsing.DepthOperationsTable | nautilus_trader/adapters/interactive_brokers/parsing/data.py:31-35 | operations 0, 1, 2 map one-to-one to add, update, delete |
| IbParsing.SideTable | nautilus_trader/adapters/interactive_brokers/parsing/data.py:37 | sides 1 and 0 map one-to-one to buy and sell |
| IbParsing.BarSpecToBarSize | nautilus_trader/adapters/interactive_brokers/parsing/data.py:74-93 | succeeds exactly for the aggregation and step pairs of the supported-size table, otherwise raises ValueError; real-time bars are chosen exactly for 5-second bars |
| IbParsing.BarSizeSpelling | nautilus_trader/adapters/interactive_brokers/parsing/data.py:77-89 | every size produced is the step, a space and the unit word: "secs", "min"/"mins", "hour"/"hours", "day" or "week" |
| IbParsing.BarSizeRoundTrip | nautilus_trader/adapters/interactive_brokers/parsing/data.py:74-89 | every supported bar specification can be read back from its bar-size string |
| IbParsing.BarSizePlural | nautilus_trader/adapters/interactive_brokers/parsing/data.py:82-85 | minute and hour units are plural exactly when the step is not 1 |
| IbParsing.RoundHalfEven | nautilus_trader/adapters/interactive_brokers/parsing/data.py:98-106 | the `.0f` rounding returns an integer within half a unit of the quotient, and an even one on a tie |
| IbParsing.DurationOf | nautilus_trader/adapters/interactive_brokers/parsing/data.py:96-106 | years exactly from 365 days, months from 30, weeks from 7, days from 1, seconds below a day; days are kept exactly, seconds are at least 30, and every amount is at least 1 |
| IbParsing.TimedeltaToDurationStr | nautilus_trader/adapters/interactive_brokers/parsing/data.py:96-106 | the string ends in a space and the letter of the chosen unit; 1 to 6 days are written as the day count and " D" |
| IbParsing.DurationRoundTrip | nautilus_trader/adapters/interactive_brokers/parsing/data.py:96-106 | the duration string parses back to exactly the amount and unit chosen |

## Left out

- Network and process I/O:
  - The Betfair HTTP client and market stream are reduced to an `io` trace of connect
    and disconnect calls and a `sent` list of outbound messages.
  - The Binance WebSocket and REST clients are reduced to `wsSubscriptions` and the
    `awaitingSnapshot` queue.
  - Sleeps, delays and the wait for the WebSocket to connect are not timed. A delayed
    task carries its delay as data.
- Decoders: the Betfair stream decoder, `BetfairParser` and the Binance msgspec decoders
  are not part of this model. Their output arrives as tagged values, and a decode failure
  as `None` or a missing stream name.
- Log text: messages are reduced to their kind; info and debug logging is left out.
- `degrade()` is modelled as a `degraded` flag set on an unreliable stream. The component
  state machine behind it is not part of this model.
- Betfair `_subscribe_ticker`, `_subscribe_instrument_status_updates` and
  `_subscribe_instrument_close` do nothing, so they have no member. `handle_data`
  (lines 265-266) is the same appending to `emitted`.
- Betfair instrument search requests (lines 173-191) depend on the provider's search; they
  are not modelled.
- `make_betfair_reader` and `historical_instrument_provider_loader` are not modelled:
  they build readers for stored data and are not part of the live client.
- Binance `_connect`, `_disconnect` and instrument loading (lines 180-240) are not
  modelled. They drive the HTTP and WebSocket clients, whose state is not part of this
  model. The decisions the model therefore does not capture:
  - `_connect` connects the HTTP client only when it is not already connected (line 183);
  - `_connect` starts two background loops (lines 189-193): one reloads the instruments
    and resends them on a fixed interval; the other waits for the WebSocket client to have
    subscriptions and then connects it, logging "awaiting subscriptions" until then;
  - `_disconnect` cancels each of those tasks only when it exists, and disconnects the
    WebSocket and HTTP clients only when they are connected (lines 223-240).
- Binance `_subscribe_ticker` and `_subscribe_quote_ticks` (lines 360-364) are not
  modelled. Each forwards the symbol to the WebSocket client.
- Binance `_subscribe_trade_ticks` (lines 366-370) is not modelled. It subscribes to
  aggregated trades when `use_agg_trade_ticks` is set, and to raw trades otherwise.
- Binance `_subscribe_bars` (lines 372-398) is not modelled. It depends on foreign enum
  parsing, and it makes decisions that the model therefore does not capture:
  - it raises when the bar type is not externally aggregated;
  - it logs and returns for a bar type that is not time-aggregated;
  - it logs an error for second bars on a futures account, but goes on subscribing;
  - when the interval is not a Binance kline interval it logs the `ValueError`, leaves
    `interval` unbound, and then raises `UnboundLocalError` at line 396.
- Binance historical trade and bar requests are covered only in their limit clamp
  (`ClampLimit`). These decisions are not modelled:
  - `_request_trade_ticks` (lines 459-498): without `use_agg_trade_ticks`, it warns when a
    from/to range is given and requests only the most recent trades; with it, the range
    is converted to milliseconds and passed to the aggregated-trades request.
  - `_request_bars` logs and returns for an internally aggregated bar type (lines
    511-516), a bar type that is not time-aggregated (518-522), and a price type other
    than LAST (538-543).
  - `_request_bars` logs an error for second bars on a futures account, and goes on
    (lines 525-529).
  - `_request_bars`: a step and resolution that are not a Binance kline interval log the
    `ValueError` at lines 530-536 and leave `interval` unbound. The request at line 555
    then raises `UnboundLocalError`.
  - `_request_bars`: an empty REST result makes `bars.pop()` at line 562 raise
    `IndexError`.
- BinanceData.BinanceDataClient.GetCachedInstrumentId: the raw exchange symbol is taken
  as already in internal form. `BinanceSymbol.parse_binance_to_internal` is not part of
  this model.
- BetfairUtil.NodeType: Python's `str.lower` is modelled on ASCII letters only.
- BetfairUtil.HashMarketTradeMillis: price and volume are taken as their already-rendered
  strings. Float rendering is not modelled, and the timestamp is taken as non-negative.
- IbParsing.TimedeltaToDurationStr:
  - Year, month and week amounts use exact round-half-even of the integer day count. The
    float division agrees here, because a tie needs an exactly representable `.5`.
  - Sub-day durations use the exact microsecond total, rounded half-even to seconds,
    with a floor of 30.
- `parse_bar_data` (interactive_brokers/parsing/data.py:54-72) is not modelled. It builds
  an engine `Bar` through the instrument's price and quantity constructors, and clamps a
  negative volume to 0 (line 67).
- The `IB_TICK_TYPE` table (interactive_brokers/parsing/data.py:40-45) is not modelled. It
  maps the codes 1-4 to the tick-type names "Last", "AllLast", "BidAsk" and "MidPoint",
  and no code in the modelled core reads it.
- `generate_trade_id` (interactive_brokers/parsing/data.py:48-51) is not modelled. It
  renders a float with `str`, which the model does not capture, and raises
  `AssertionError` when the resulting id is 36 characters or longer.
- Concurrency: tasks run to completion one at a time (`RunTask`, `CompleteSnapshot`). An
  interleaving inside one coroutine beyond its single modelled await is not captured.
  `RouteRecords` reads the subscribed instrument set once, before its loop. A subscription
  made from inside `_handle_data` while the loop runs would therefore not be seen by the
  rest of that batch.
- BetfairData.BetfairDataClient.constructor: the client is always given a provider (its
  `directory`). The source's default `instrument_provider=None` is not modelled. With that
  default, data.py:90-91 hands a fresh `BetfairInstrumentProvider` to the base class, but
  line 102 stores the raw `None` as `self._instrument_provider`. Such a client would then
  raise `AttributeError`:
  - in `_connect`, at `.count` (line 130);
  - in `subscribe_order_book_deltas`, at `.find` (line 206);
  - in `_subscribe_instrument`, at `.list_all()` (line 243).
