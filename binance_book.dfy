/** The decisions and state changes of the Binance data client as functions on values: order book
    subscription parameters, the delta buffer and its replay, the symbol cache, the websocket
    handler table and the request-limit clamp. The class in module BinanceData is proved
    against them. */
module BinanceBook {
  import opened Outcomes
  import opened Strings

  /** An instrument on the Binance venue, named by its internal symbol. */
  datatype InstrumentId = InstrumentId(symbol: string)

  /** Order book deltas from one diff-depth update, with the update's sequence number. */
  datatype Deltas = Deltas(instrumentId: InstrumentId, sequence: int)

  /** What the client hands to the data engine. */
  datatype MarketData =
    | BookSnapshot(snapshotId: InstrumentId, snapshotSequence: int)
    | BookDeltas(deltas: Deltas)
    | Quote(quoteId: InstrumentId)
    | Ticker(tickerId: InstrumentId)
    | Bar(barId: InstrumentId)
    | Trade(tradeId: InstrumentId)

  datatype BookType = L1Tbbo | L2Mbp | L3Mbo

  // ---------------------------------------------------------------------------------------
  // Order book subscription parameters

  /** The update speeds in milliseconds the account type accepts. */
  function ValidSpeeds(isFutures: bool): set<int>
  {
    if isFutures then {0, 100, 250, 500} else {100, 1000}
  }

  /** The update speed used: the one asked for, else 0 ms for futures and 100 ms for spot. */
  function ResolveSpeed(isFutures: bool, updateSpeed: Option<int>): (s: int)
    ensures updateSpeed.Some? ==> s == updateSpeed.value
    ensures updateSpeed.None? ==> s == (if isFutures then 0 else 100)
    ensures updateSpeed.None? ==> s in ValidSpeeds(isFutures)
  {
    match updateSpeed
    case Some(speed) => speed
    case None => if isFutures then 0 else 100
  }

  /** How `_subscribe_order_book` proceeds. */
  datatype BookPlan =
    | RejectBookType
    | RejectSpeed(badSpeed: int)
    | RejectDepth(badDepth: int, rejectedSpeed: int)
    | PartialDepth(depth: int, partialSpeed: int)
    | DiffDepth(diffSpeed: int)

  /** Whether the plan reaches the line that installs the instrument's delta buffer. */
  predicate InstallsBuffer(p: BookPlan)
  {
    p.RejectDepth? || p.PartialDepth? || p.DiffDepth?
  }

  /** The checks of `_subscribe_order_book`, in the source's order: book type, then update
      speed, then depth (an unset depth is 0; 1..20 must be 5, 10 or 20 and gives a partial
      book; anything else gives diff updates). */
  function PlanBookSubscription(isFutures: bool, bookType: BookType, updateSpeed: Option<int>, depth: Option<int>): (p: BookPlan)
    ensures p.RejectBookType? <==> bookType == L3Mbo
    ensures p.RejectSpeed? <==> bookType != L3Mbo && ResolveSpeed(isFutures, updateSpeed) !in ValidSpeeds(isFutures)
    ensures p.RejectSpeed? ==> p.badSpeed == ResolveSpeed(isFutures, updateSpeed)
    ensures InstallsBuffer(p) ==> bookType != L3Mbo && ResolveSpeed(isFutures, updateSpeed) in ValidSpeeds(isFutures)
    ensures p.RejectDepth? ==> depth.Some? && p.badDepth == depth.value && 0 < p.badDepth <= 20 && p.badDepth !in {5, 10, 20}
    ensures p.PartialDepth? ==> depth == Some(p.depth) && p.depth in {5, 10, 20}
    ensures p.PartialDepth? ==> p.partialSpeed == ResolveSpeed(isFutures, updateSpeed)
    ensures p.DiffDepth? <==> InstallsBuffer(p) && (depth.None? || depth.value <= 0 || depth.value > 20)
    ensures p.DiffDepth? ==> p.diffSpeed == ResolveSpeed(isFutures, updateSpeed)
  {
    if bookType == L3Mbo then RejectBookType
    else
      var speed := ResolveSpeed(isFutures, updateSpeed);
      if speed !in ValidSpeeds(isFutures) then RejectSpeed(speed)
      else
        var d := match depth case None => 0 case Some(v) => v;
        if 0 < d <= 20 then
          if d !in {5, 10, 20} then RejectDepth(d, speed) else PartialDepth(d, speed)
        else DiffDepth(speed)
  }

  // ---------------------------------------------------------------------------------------
  // Replay of buffered deltas

  /** The buffered deltas newer than the snapshot, in buffer order. */
  function Newer(buffer: seq<Deltas>, snapshotSequence: int): seq<Deltas>
    decreases |buffer|
  {
    if buffer == [] then []
    else
      var last := buffer[|buffer| - 1];
      Newer(buffer[..|buffer| - 1], snapshotSequence) + (if last.sequence <= snapshotSequence then [] else [last])
  }

  /** A delta is replayed exactly when it was buffered and is newer than the snapshot. */
  lemma {:induction false} NewerMembers(buffer: seq<Deltas>, snapshotSequence: int)
    ensures forall d :: d in Newer(buffer, snapshotSequence) <==> d in buffer && d.sequence > snapshotSequence
    decreases |buffer|
  {
    if buffer != [] {
      var init := buffer[..|buffer| - 1];
      NewerMembers(init, snapshotSequence);
      assert buffer == init + [buffer[|buffer| - 1]];
    }
  }

  /** Replaying two buffers one after the other is replaying their concatenation: buffer order
      is kept. */
  lemma {:induction false} NewerAppend(a: seq<Deltas>, b: seq<Deltas>, snapshotSequence: int)
    ensures Newer(a + b, snapshotSequence) == Newer(a, snapshotSequence) + Newer(b, snapshotSequence)
    decreases |b|
  {
    if b == [] {
      assert a + b == a;
    } else {
      var b0 := b[..|b| - 1];
      assert (a + b)[..|a + b| - 1] == a + b0;
      NewerAppend(a, b0, snapshotSequence);
    }
  }

  /** Replayed deltas come out in increasing position of the buffer: the replay is the buffer
      with the stale deltas taken out. */
  lemma {:induction false} NewerIsFiltered(buffer: seq<Deltas>, snapshotSequence: int)
    ensures |Newer(buffer, snapshotSequence)| <= |buffer|
    ensures (forall k :: 0 <= k < |buffer| ==> buffer[k].sequence > snapshotSequence) ==>
      Newer(buffer, snapshotSequence) == buffer
    ensures (forall k :: 0 <= k < |buffer| ==> buffer[k].sequence <= snapshotSequence) ==>
      Newer(buffer, snapshotSequence) == []
    decreases |buffer|
  {
    if buffer != [] {
      var init, last := buffer[..|buffer| - 1], buffer[|buffer| - 1];
      NewerIsFiltered(init, snapshotSequence);
      assert buffer == init + [last];
      if forall k :: 0 <= k < |buffer| ==> buffer[k].sequence > snapshotSequence {
        assert forall k :: 0 <= k < |init| ==> init[k].sequence > snapshotSequence by {
          forall k | 0 <= k < |init| ensures init[k].sequence > snapshotSequence {
            assert init[k] == buffer[k];
          }
        }
        assert last.sequence > snapshotSequence;
      }
      if forall k :: 0 <= k < |buffer| ==> buffer[k].sequence <= snapshotSequence {
        assert forall k :: 0 <= k < |init| ==> init[k].sequence <= snapshotSequence by {
          forall k | 0 <= k < |init| ensures init[k].sequence <= snapshotSequence {
            assert init[k] == buffer[k];
          }
        }
        assert last.sequence <= snapshotSequence;
      }
    }
  }

  // ---------------------------------------------------------------------------------------
  // Request limit

  /** The limit sent for historical trade ticks and bars: 0 and anything above 1000 become 1000. */
  function ClampLimit(limit: int): (r: int)
    ensures limit == 0 || limit > 1000 ==> r == 1000
    ensures 0 < limit <= 1000 || limit < 0 ==> r == limit
    ensures limit >= 0 ==> 1 <= r <= 1000
  {
    if limit == 0 || limit > 1000 then 1000 else limit
  }

  // ---------------------------------------------------------------------------------------
  // Websocket messages

  /** What each typed decoder finds in a raw message: the decoders accept only their own shape. */
  datatype Body =
    | QuoteBody
    | TickerBody
    | KlineBody(closed: bool)
    | AggTradeBody
    | DiffBody(sequence: int)
    | OtherBody

  /** A raw websocket message: the wrapper's `stream` name (None when the wrapper does not
      decode), the symbol in its data and the typed body. */
  datatype RawMessage = RawMessage(stream: Option<string>, symbol: string, body: Body)

  datatype Handler =
    | BookTickerHandler
    | TickerHandler
    | KlineHandler
    | TradeHandler
    | AggTradeHandler
    | BookDiffHandler
    | BookPartialHandler

  /** `_ws_handlers`: stream-name fragments and their handlers, in insertion order. */
  const WsHandlers: seq<(string, Handler)> := [
    ("@bookTicker", BookTickerHandler),
    ("@ticker", TickerHandler),
    ("@kline", KlineHandler),
    ("@trade", TradeHandler),
    ("@aggTrade", AggTradeHandler),
    ("@depth@", BookDiffHandler),
    ("@depth5", BookPartialHandler),
    ("@depth10", BookPartialHandler),
    ("@depth20", BookPartialHandler)
  ]

  /** The handlers among the first n table entries whose fragment occurs in the stream name,
      in table order. */
  function MatchingHandlers(stream: string, n: nat): seq<Handler>
    requires n <= |WsHandlers|
  {
    if n == 0 then []
    else
      MatchingHandlers(stream, n - 1) +
      (if IsSubstring(WsHandlers[n - 1].0, stream) then [WsHandlers[n - 1].1] else [])
  }

  /** The client's state that the handlers touch: the delta buffers, the symbol cache and what
      went to the data engine. */
  datatype Feed = Feed(buffer: map<InstrumentId, seq<Deltas>>, cache: map<string, InstrumentId>, out: seq<MarketData>)

  /** Every cached id is the one built from its symbol. */
  ghost predicate CacheValid(cache: map<string, InstrumentId>)
  {
    forall s :: s in cache ==> cache[s] == InstrumentId(s)
  }

  /** `_get_cached_instrument_id`: the cached id for the symbol, adding it on a miss. */
  function CachedId(cache: map<string, InstrumentId>, symbol: string): (r: (InstrumentId, map<string, InstrumentId>))
    ensures CacheValid(cache) ==> r.0 == InstrumentId(symbol) && CacheValid(r.1)
    ensures r.1.Keys == cache.Keys + {symbol}
    ensures forall s :: s in cache ==> s in r.1 && r.1[s] == cache[s]
    ensures symbol in cache ==> r == (cache[symbol], cache)
  {
    if symbol in cache then (cache[symbol], cache)
    else (InstrumentId(symbol), cache[symbol := InstrumentId(symbol)])
  }

  /** Emits the record built for the message's instrument. */
  function EmitFor(f: Feed, symbol: string, make: InstrumentId -> MarketData): Feed
  {
    var (id, cache) := CachedId(f.cache, symbol);
    f.(cache := cache, out := f.out + [make(id)])
  }

  /** One handler on a raw message. A handler whose decoder does not accept the message raises
      DecodeError, the partial-book and raw-trade handlers raise NotImplementedError, and a
      handler that raises has changed nothing. */
  function Handle(f: Feed, h: Handler, raw: RawMessage): (r: (Outcome, Feed))
    ensures r.0.Raised? ==> r.1 == f
    ensures r.0 == Raised(NotImplementedError) <==> h == TradeHandler || h == BookPartialHandler
    ensures f.cache.Keys <= r.1.cache.Keys <= f.cache.Keys + {raw.symbol}
    ensures r.1.buffer.Keys == f.buffer.Keys
    ensures CacheValid(f.cache) ==> CacheValid(r.1.cache)
    ensures f.out <= r.1.out && |r.1.out| <= |f.out| + 1
  {
    match h
    case BookTickerHandler =>
      if raw.body.QuoteBody? then (Completed, EmitFor(f, raw.symbol, id => Quote(id))) else (Raised(DecodeError), f)
    case TickerHandler =>
      if raw.body.TickerBody? then (Completed, EmitFor(f, raw.symbol, id => Ticker(id))) else (Raised(DecodeError), f)
    case KlineHandler =>
      if !raw.body.KlineBody? then (Raised(DecodeError), f)
      else if !raw.body.closed then (Completed, f)
      else (Completed, EmitFor(f, raw.symbol, id => Bar(id)))
    case TradeHandler => (Raised(NotImplementedError), f)
    case AggTradeHandler =>
      if raw.body.AggTradeBody? then (Completed, EmitFor(f, raw.symbol, id => Trade(id))) else (Raised(DecodeError), f)
    case BookDiffHandler =>
      if !raw.body.DiffBody? then (Raised(DecodeError), f)
      else
        var (id, cache) := CachedId(f.cache, raw.symbol);
        var deltas := Deltas(id, raw.body.sequence);
        if id in f.buffer then (Completed, f.(cache := cache, buffer := f.buffer[id := f.buffer[id] + [deltas]]))
        else (Completed, f.(cache := cache, out := f.out + [BookDeltas(deltas)]))
    case BookPartialHandler => (Raised(NotImplementedError), f)
  }

  /** A kline that has not closed yet is dropped before anything is looked up. */
  lemma OpenKlineIgnored(f: Feed, symbol: string, stream: Option<string>)
    ensures Handle(f, KlineHandler, RawMessage(stream, symbol, KlineBody(false))) == (Completed, f)
  {
  }

  /** A diff update for an instrument with a buffer is appended to that buffer and not emitted;
      without a buffer it is emitted at once and no buffer appears. */
  lemma DiffUpdateBuffered(f: Feed, raw: RawMessage)
    requires raw.body.DiffBody? && CacheValid(f.cache)
    ensures var id := InstrumentId(raw.symbol);
      var r := Handle(f, BookDiffHandler, raw).1;
      && (id in f.buffer ==> r.out == f.out && r.buffer == f.buffer[id := f.buffer[id] + [Deltas(id, raw.body.sequence)]])
      && (id !in f.buffer ==> r.out == f.out + [BookDeltas(Deltas(id, raw.body.sequence))] && r.buffer == f.buffer)
  {
    var (id, cache) := CachedId(f.cache, raw.symbol);
    assert id == InstrumentId(raw.symbol);
  }

  /** One handler call inside the dispatch loop's `try`: the new state, or the exception. */
  function Step(f: Feed, h: Handler, raw: RawMessage): (Feed, Option<PyError>)
  {
    var r := Handle(f, h, raw);
    if r.0.Raised? then (f, Some(r.0.error)) else (r.1, None)
  }

  /** The outcome of running the handler table over a message so far: the state, whether some
      handler ran, and the exception that stopped the loop. */
  datatype Dispatch = Dispatch(feed: Feed, handled: bool, error: Option<PyError>)

  /** The dispatch loop over the first n table entries. */
  function RunHandlers(f: Feed, raw: RawMessage, stream: string, n: nat): Dispatch
    requires n <= |WsHandlers|
  {
    if n == 0 then Dispatch(f, false, None)
    else
      var prev := RunHandlers(f, raw, stream, n - 1);
      if prev.error.Some? || !IsSubstring(WsHandlers[n - 1].0, stream) then prev
      else
        var step := Step(prev.feed, WsHandlers[n - 1].1, raw);
        Dispatch(step.0, prev.handled || step.1.None?, step.1)
  }

  /** The handlers applied one after the other, stopping at the first that raises. */
  function ApplyAll(f: Feed, hs: seq<Handler>, raw: RawMessage): (Feed, Option<PyError>)
    decreases |hs|
  {
    if hs == [] then (f, None)
    else
      var prev := ApplyAll(f, hs[..|hs| - 1], raw);
      if prev.1.Some? then prev
      else
        Step(prev.0, hs[|hs| - 1], raw)
  }

  /** The dispatch loop runs exactly the handlers whose fragment occurs in the stream name, in
      table order, stopping at the first that raises. */
  lemma {:induction false} DispatchRunsMatching(f: Feed, raw: RawMessage, stream: string, n: nat)
    requires n <= |WsHandlers|
    ensures var d := RunHandlers(f, raw, stream, n);
      (d.feed, d.error) == ApplyAll(f, MatchingHandlers(stream, n), raw)
  {
    if n > 0 {
      DispatchRunsMatching(f, raw, stream, n - 1);
      var hs := MatchingHandlers(stream, n - 1);
      var entry := WsHandlers[n - 1];
      if IsSubstring(entry.0, stream) {
        var hs' := hs + [entry.1];
        assert MatchingHandlers(stream, n) == hs';
        assert hs'[..|hs'| - 1] == hs;
        assert ApplyAll(f, hs', raw) == (
          var prev := ApplyAll(f, hs, raw);
          if prev.1.Some? then prev else Step(prev.0, entry.1, raw));
      } else {
        assert MatchingHandlers(stream, n) == hs;
      }
    }
  }

  /** Once a handler has raised, the rest of the table is not consulted. */
  lemma {:induction false} DispatchStops(f: Feed, raw: RawMessage, stream: string, i: nat, n: nat)
    requires i <= n <= |WsHandlers| && RunHandlers(f, raw, stream, i).error.Some?
    ensures RunHandlers(f, raw, stream, n) == RunHandlers(f, raw, stream, i)
    decreases n - i
  {
    if i < n {
      DispatchStops(f, raw, stream, i, n - 1);
    }
  }

  /** When no handler raised, the message counts as handled exactly when some fragment of the
      table occurs in its stream name. */
  lemma {:induction false} DispatchHandled(f: Feed, raw: RawMessage, stream: string, n: nat)
    requires n <= |WsHandlers|
    ensures var d := RunHandlers(f, raw, stream, n);
      d.error.None? ==> (d.handled <==> MatchingHandlers(stream, n) != [])
  {
    if n > 0 {
      DispatchHandled(f, raw, stream, n - 1);
    }
  }

  /** What `_handle_ws_message` logs. */
  datatype WsLog = UnrecognisedStream(stream: string) | HandlerFailed(error: PyError)

  /** `_handle_ws_message`: a wrapper that does not decode raises out of the call; otherwise
      the dispatch loop runs, an exception from a handler is logged and ends the loop, and a
      message no handler took is logged as unrecognised. */
  function HandleWsMessage(f: Feed, raw: RawMessage): (r: (Outcome, Feed, seq<WsLog>))
    ensures raw.stream.None? <==> r.0.Raised?
    ensures r.0.Raised? ==> r.0.error == DecodeError && r.1 == f && r.2 == []
    ensures |r.2| <= 1
    ensures raw.stream.Some? ==>
      var d := RunHandlers(f, raw, raw.stream.value, |WsHandlers|);
      && r.1 == d.feed
      && (d.error.Some? ==> r.2 == [HandlerFailed(d.error.value)])
      && (d.error.None? && d.handled ==> r.2 == [])
      && (d.error.None? && !d.handled ==> r.2 == [UnrecognisedStream(raw.stream.value)])
  {
    match raw.stream
    case None => (Raised(DecodeError), f, [])
    case Some(stream) =>
      var d := RunHandlers(f, raw, stream, |WsHandlers|);
      var logs :=
        if d.error.Some? then [HandlerFailed(d.error.value)]
        else if !d.handled then [UnrecognisedStream(stream)]
        else [];
      (Completed, d.feed, logs)
  }

  /** `_handle_ws_message` in terms of the matching handlers alone: they run in table order
      until one raises; that exception is the one log entry, a message no fragment matches logs
      one unrecognised-stream entry, and a message handled without an exception logs nothing. */
  lemma WsMessageLogs(f: Feed, raw: RawMessage)
    requires raw.stream.Some?
    ensures var hs := MatchingHandlers(raw.stream.value, |WsHandlers|);
      var a := ApplyAll(f, hs, raw);
      HandleWsMessage(f, raw) == (Completed, a.0,
        if a.1.Some? then [HandlerFailed(a.1.value)]
        else if hs == [] then [UnrecognisedStream(raw.stream.value)]
        else [])
  {
    DispatchRunsMatching(f, raw, raw.stream.value, |WsHandlers|);
    DispatchHandled(f, raw, raw.stream.value, |WsHandlers|);
  }

  /** A message whose stream name contains no fragment of the table changes nothing and is
      logged as unrecognised. */
  lemma UnmatchedLogged(f: Feed, raw: RawMessage)
    requires raw.stream.Some? && MatchingHandlers(raw.stream.value, |WsHandlers|) == []
    ensures HandleWsMessage(f, raw) == (Completed, f, [UnrecognisedStream(raw.stream.value)])
  {
    DispatchHandled(f, raw, raw.stream.value, |WsHandlers|);
    DispatchUnchanged(f, raw, raw.stream.value, |WsHandlers|);
  }

  /** With no matching fragment the loop changes nothing. */
  lemma {:induction false} DispatchUnchanged(f: Feed, raw: RawMessage, stream: string, n: nat)
    requires n <= |WsHandlers| && MatchingHandlers(stream, n) == []
    ensures RunHandlers(f, raw, stream, n) == Dispatch(f, false, None)
  {
    if n > 0 {
      assert MatchingHandlers(stream, n - 1) == [];
      DispatchUnchanged(f, raw, stream, n - 1);
    }
  }

  /** Handlers never lose data already emitted, never add or remove a delta buffer, never drop
      cache entries, add at most the message's symbol, and keep every cached id equal to the one
      built from its symbol, so the same symbol always maps to the same id. A buffer left behind
      by an invalid depth therefore keeps swallowing that instrument's diff updates. */
  lemma {:induction false} DispatchKeepsCache(f: Feed, raw: RawMessage, stream: string, n: nat)
    requires n <= |WsHandlers| && CacheValid(f.cache)
    ensures CacheValid(RunHandlers(f, raw, stream, n).feed.cache)
    ensures f.cache.Keys <= RunHandlers(f, raw, stream, n).feed.cache.Keys <= f.cache.Keys + {raw.symbol}
    ensures f.out <= RunHandlers(f, raw, stream, n).feed.out
    ensures RunHandlers(f, raw, stream, n).feed.buffer.Keys == f.buffer.Keys
  {
    if n > 0 {
      var prev := RunHandlers(f, raw, stream, n - 1);
      DispatchKeepsCache(f, raw, stream, n - 1);
      if prev.error.None? && IsSubstring(WsHandlers[n - 1].0, stream) {
        var r := Handle(prev.feed, WsHandlers[n - 1].1, raw);
        assert RunHandlers(f, raw, stream, n).feed == (if r.0.Raised? then prev.feed else r.1);
      }
    }
  }
}
