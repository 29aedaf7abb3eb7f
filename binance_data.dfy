/** `BinanceCommonDataClient`: order book subscriptions with their delta buffers, the symbol
    cache and the websocket handlers, as an object whose methods update its dictionaries and
    lists in place. Each `await` of `_subscribe_order_book` splits it into a begin and a
    completion step so that messages can arrive between the two. */
module BinanceData {
  import opened Outcomes
  import opened Strings
  import opened BinanceBook

  /** A stream subscription made on the websocket client. */
  datatype WsSubscription =
    | PartialBookDepthStream(partialSymbol: string, depth: int, partialSpeed: int)
    | DiffBookDepthStream(diffSymbol: string, diffSpeed: int)

  /** The client's error log. */
  datatype ClientLog =
    | InvalidBookType
    | InvalidUpdateSpeed(speed: int)
    | InvalidDepth(depth: int)
    | WsError(entry: WsLog)

  /** The log entries `_subscribe_order_book` writes for a plan. */
  function PlanLogs(p: BookPlan): seq<ClientLog>
  {
    match p
    case RejectBookType => [InvalidBookType]
    case RejectSpeed(speed) => [InvalidUpdateSpeed(speed)]
    case RejectDepth(depth, _) => [InvalidDepth(depth)]
    case _ => []
  }

  /** The websocket subscription `_subscribe_order_book` makes for a plan. */
  function PlanStreams(symbol: string, p: BookPlan): seq<WsSubscription>
  {
    match p
    case PartialDepth(depth, speed) => [PartialBookDepthStream(symbol, depth, speed)]
    case DiffDepth(speed) => [DiffBookDepthStream(symbol, speed)]
    case _ => []
  }

  /** The buffer `pop(instrument_id, [])` returns. */
  function Buffered(buffer: map<InstrumentId, seq<Deltas>>, id: InstrumentId): seq<Deltas>
  {
    if id in buffer then buffer[id] else []
  }

  /** The deltas as they reach the data engine. */
  function AsBookDeltas(ds: seq<Deltas>): (r: seq<MarketData>)
    ensures |r| == |ds| && forall k :: 0 <= k < |ds| ==> r[k] == BookDeltas(ds[k])
  {
    seq(|ds|, k requires 0 <= k < |ds| => BookDeltas(ds[k]))
  }

  function WsLogs(entries: seq<WsLog>): seq<ClientLog>
    decreases |entries|
  {
    if entries == [] then [] else [WsError(entries[0])] + WsLogs(entries[1..])
  }

  class BinanceDataClient {
    const isFutures: bool
    /** `_book_buffer`: deltas held back per instrument while its snapshot is fetched. */
    var bookBuffer: map<InstrumentId, seq<Deltas>>
    /** `_instrument_ids`: internal symbol to instrument id. */
    var instrumentIds: map<string, InstrumentId>
    /** Everything passed to `_handle_data`, in order. */
    var out: seq<MarketData>
    var logs: seq<ClientLog>
    var wsSubscriptions: seq<WsSubscription>
    /** Partial-book subscriptions suspended at their `await`, waiting for the snapshot. */
    var awaitingSnapshot: seq<InstrumentId>

    /** The state the websocket handlers touch, as a value of the pure model. */
    ghost function View(): Feed
      reads this
    {
      Feed(bookBuffer, instrumentIds, out)
    }

    ghost predicate Valid()
      reads this
    {
      CacheValid(instrumentIds)
    }

    constructor(isFutures: bool)
      ensures Valid()
      ensures this.isFutures == isFutures
      ensures bookBuffer == map[] && instrumentIds == map[] && out == [] && logs == []
      ensures wsSubscriptions == [] && awaitingSnapshot == []
    {
      this.isFutures := isFutures;
      bookBuffer := map[];
      instrumentIds := map[];
      out := [];
      logs := [];
      wsSubscriptions := [];
      awaitingSnapshot := [];
    }

    /** The tail of `_subscribe_order_book`: pops the instrument's buffer and hands on the deltas
        newer than the snapshot. Without a snapshot (the diff-depth branch never binds one)
        reading its sequence raises as soon as there is a buffered delta. */
    method ReplayBuffer(instrumentId: InstrumentId, snapshotSequence: Option<int>) returns (outcome: Outcome)
      modifies this
      ensures bookBuffer == old(bookBuffer) - {instrumentId}
      ensures snapshotSequence.Some? ==>
        outcome == Completed && out == old(out) + AsBookDeltas(Newer(Buffered(old(bookBuffer), instrumentId), snapshotSequence.value))
      ensures snapshotSequence.None? ==>
        out == old(out) && (outcome == Completed <==> Buffered(old(bookBuffer), instrumentId) == [])
      ensures snapshotSequence.None? && outcome.Raised? ==> outcome.error == UnboundLocalError
      ensures instrumentIds == old(instrumentIds) && logs == old(logs)
      ensures wsSubscriptions == old(wsSubscriptions) && awaitingSnapshot == old(awaitingSnapshot)
    {
      var buffer := Buffered(bookBuffer, instrumentId);
      bookBuffer := bookBuffer - {instrumentId};
      var i := 0;
      while i < |buffer|
        invariant 0 <= i <= |buffer|
        invariant snapshotSequence.None? ==> i == 0 && out == old(out)
        invariant snapshotSequence.Some? ==> out == old(out) + AsBookDeltas(Newer(buffer[..i], snapshotSequence.value))
        invariant bookBuffer == old(bookBuffer) - {instrumentId}
        invariant instrumentIds == old(instrumentIds) && logs == old(logs)
        invariant wsSubscriptions == old(wsSubscriptions) && awaitingSnapshot == old(awaitingSnapshot)
      {
        if snapshotSequence.None? {
          return Raised(UnboundLocalError);
        }
        assert buffer[..i + 1][..i] == buffer[..i];
        var deltas := buffer[i];
        ghost var before := Newer(buffer[..i], snapshotSequence.value);
        if deltas.sequence > snapshotSequence.value {
          out := out + [BookDeltas(deltas)];
          assert AsBookDeltas(before + [deltas]) == AsBookDeltas(before) + [BookDeltas(deltas)];
        } else {
          assert before + [] == before;
        }
        i := i + 1;
      }
      assert buffer[..i] == buffer;
      outcome := Completed;
    }

    /** `_subscribe_order_book` up to its first `await`. It checks the book type and the
        update speed, installs an empty buffer for the instrument, then checks the depth (so an
        invalid depth leaves the buffer behind). A partial depth subscribes its stream and
        suspends to fetch the snapshot; a diff depth subscribes its stream and pops the buffer
        at once, which cannot have received anything, so the snapshot it never bound is not
        read. */
    method SubscribeOrderBookBegin(instrumentId: InstrumentId, bookType: BookType, updateSpeed: Option<int>, depth: Option<int>)
      requires Valid()
      modifies this
      ensures Valid()
      ensures var p := PlanBookSubscription(isFutures, bookType, updateSpeed, depth);
        && bookBuffer == (if p.DiffDepth? then old(bookBuffer) - {instrumentId}
                          else if InstallsBuffer(p) then old(bookBuffer)[instrumentId := []]
                          else old(bookBuffer))
        && wsSubscriptions == old(wsSubscriptions) + PlanStreams(instrumentId.symbol, p)
        && awaitingSnapshot == old(awaitingSnapshot) + (if p.PartialDepth? then [instrumentId] else [])
        && logs == old(logs) + PlanLogs(p)
      ensures out == old(out) && instrumentIds == old(instrumentIds)
    {
      if bookType == L3Mbo {
        logs := logs + [InvalidBookType];
        return;
      }
      var validSpeeds := {100, 1000};
      var speed := updateSpeed;
      if isFutures {
        if speed.None? {
          speed := Some(0);
        }
        validSpeeds := {0, 100, 250, 500};
      } else if speed.None? {
        speed := Some(100);
      }
      if speed.value !in validSpeeds {
        logs := logs + [InvalidUpdateSpeed(speed.value)];
        return;
      }
      var d := if depth.None? then 0 else depth.value;

      bookBuffer := bookBuffer[instrumentId := []];

      if 0 < d <= 20 {
        if d !in {5, 10, 20} {
          logs := logs + [InvalidDepth(d)];
          return;
        }
        wsSubscriptions := wsSubscriptions + [PartialBookDepthStream(instrumentId.symbol, d, speed.value)];
        awaitingSnapshot := awaitingSnapshot + [instrumentId];
        return;
      }
      wsSubscriptions := wsSubscriptions + [DiffBookDepthStream(instrumentId.symbol, speed.value)];
      var outcome := ReplayBuffer(instrumentId, None);
      assert outcome == Completed;
    }

    /** The rest of a partial-depth `_subscribe_order_book` once the snapshot has arrived: the
        snapshot goes to the data engine, then the deltas buffered meanwhile that are newer than
        it, in the order they came. */
    method CompleteSnapshot(k: nat, snapshotSequence: int)
      requires Valid() && k < |awaitingSnapshot|
      modifies this
      ensures Valid()
      ensures var id := old(awaitingSnapshot[k]);
        && out == old(out) + [BookSnapshot(id, snapshotSequence)] + AsBookDeltas(Newer(Buffered(old(bookBuffer), id), snapshotSequence))
        && bookBuffer == old(bookBuffer) - {id}
      ensures awaitingSnapshot == old(awaitingSnapshot[..k] + awaitingSnapshot[k + 1..])
      ensures instrumentIds == old(instrumentIds) && logs == old(logs) && wsSubscriptions == old(wsSubscriptions)
    {
      var instrumentId := awaitingSnapshot[k];
      awaitingSnapshot := awaitingSnapshot[..k] + awaitingSnapshot[k + 1..];
      out := out + [BookSnapshot(instrumentId, snapshotSequence)];
      var outcome := ReplayBuffer(instrumentId, Some(snapshotSequence));
    }

    /** `_get_cached_instrument_id`: the memoised id for a symbol. */
    method GetCachedInstrumentId(symbol: string) returns (instrumentId: InstrumentId)
      requires Valid()
      modifies this
      ensures Valid()
      ensures (instrumentId, instrumentIds) == CachedId(old(instrumentIds), symbol)
      ensures instrumentId == InstrumentId(symbol)
      ensures bookBuffer == old(bookBuffer) && out == old(out) && logs == old(logs)
      ensures wsSubscriptions == old(wsSubscriptions) && awaitingSnapshot == old(awaitingSnapshot)
    {
      if symbol in instrumentIds {
        return instrumentIds[symbol];
      }
      instrumentId := InstrumentId(symbol);
      instrumentIds := instrumentIds[symbol := instrumentId];
    }

    /** `_handle_book_diff_update`: buffered while the instrument has a buffer, else emitted. */
    method HandleBookDiffUpdate(raw: RawMessage) returns (outcome: Outcome)
      requires Valid()
      modifies this
      ensures Valid()
      ensures (outcome, View()) == Handle(old(View()), BookDiffHandler, raw)
      ensures logs == old(logs) && wsSubscriptions == old(wsSubscriptions) && awaitingSnapshot == old(awaitingSnapshot)
    {
      if !raw.body.DiffBody? {
        return Raised(DecodeError);
      }
      var instrumentId := GetCachedInstrumentId(raw.symbol);
      var deltas := Deltas(instrumentId, raw.body.sequence);
      if instrumentId in bookBuffer {
        bookBuffer := bookBuffer[instrumentId := bookBuffer[instrumentId] + [deltas]];
      } else {
        out := out + [BookDeltas(deltas)];
      }
      outcome := Completed;
    }

    /** `_handle_book_ticker`. */
    method HandleBookTicker(raw: RawMessage) returns (outcome: Outcome)
      requires Valid()
      modifies this
      ensures Valid()
      ensures (outcome, View()) == Handle(old(View()), BookTickerHandler, raw)
      ensures logs == old(logs) && wsSubscriptions == old(wsSubscriptions) && awaitingSnapshot == old(awaitingSnapshot)
    {
      if !raw.body.QuoteBody? {
        return Raised(DecodeError);
      }
      var instrumentId := GetCachedInstrumentId(raw.symbol);
      out := out + [Quote(instrumentId)];
      outcome := Completed;
    }

    /** `_handle_ticker`. */
    method HandleTicker(raw: RawMessage) returns (outcome: Outcome)
      requires Valid()
      modifies this
      ensures Valid()
      ensures (outcome, View()) == Handle(old(View()), TickerHandler, raw)
      ensures logs == old(logs) && wsSubscriptions == old(wsSubscriptions) && awaitingSnapshot == old(awaitingSnapshot)
    {
      if !raw.body.TickerBody? {
        return Raised(DecodeError);
      }
      var instrumentId := GetCachedInstrumentId(raw.symbol);
      out := out + [Ticker(instrumentId)];
      outcome := Completed;
    }

    /** `_handle_kline`: a bar that has not closed is dropped. */
    method HandleKline(raw: RawMessage) returns (outcome: Outcome)
      requires Valid()
      modifies this
      ensures Valid()
      ensures (outcome, View()) == Handle(old(View()), KlineHandler, raw)
      ensures logs == old(logs) && wsSubscriptions == old(wsSubscriptions) && awaitingSnapshot == old(awaitingSnapshot)
    {
      if !raw.body.KlineBody? {
        return Raised(DecodeError);
      }
      if !raw.body.closed {
        return Completed;
      }
      var instrumentId := GetCachedInstrumentId(raw.symbol);
      out := out + [Bar(instrumentId)];
      outcome := Completed;
    }

    /** `_handle_agg_trade`. */
    method HandleAggTrade(raw: RawMessage) returns (outcome: Outcome)
      requires Valid()
      modifies this
      ensures Valid()
      ensures (outcome, View()) == Handle(old(View()), AggTradeHandler, raw)
      ensures logs == old(logs) && wsSubscriptions == old(wsSubscriptions) && awaitingSnapshot == old(awaitingSnapshot)
    {
      if !raw.body.AggTradeBody? {
        return Raised(DecodeError);
      }
      var instrumentId := GetCachedInstrumentId(raw.symbol);
      out := out + [Trade(instrumentId)];
      outcome := Completed;
    }

    /** `_ws_handlers[handler](raw)`: the raw-trade and partial-book handlers are left to
        subclasses and raise NotImplementedError here. */
    method CallHandler(h: Handler, raw: RawMessage) returns (outcome: Outcome)
      requires Valid()
      modifies this
      ensures Valid()
      ensures (outcome, View()) == Handle(old(View()), h, raw)
      ensures logs == old(logs) && wsSubscriptions == old(wsSubscriptions) && awaitingSnapshot == old(awaitingSnapshot)
    {
      match h
      case BookTickerHandler => outcome := HandleBookTicker(raw);
      case TickerHandler => outcome := HandleTicker(raw);
      case KlineHandler => outcome := HandleKline(raw);
      case TradeHandler => outcome := Raised(NotImplementedError);
      case AggTradeHandler => outcome := HandleAggTrade(raw);
      case BookDiffHandler => outcome := HandleBookDiffUpdate(raw);
      case BookPartialHandler => outcome := Raised(NotImplementedError);
    }

    /** `_handle_ws_message`: decodes the wrapper (a failure propagates), then calls every
        handler whose fragment occurs in the stream name, in table order; an exception from a
        handler is logged and ends the loop, and a message nobody handled is logged. */
    method HandleWsMessage(raw: RawMessage) returns (outcome: Outcome)
      requires Valid()
      modifies this
      ensures Valid()
      ensures var r := BinanceBook.HandleWsMessage(old(View()), raw);
        outcome == r.0 && View() == r.1 && logs == old(logs) + WsLogs(r.2)
      ensures wsSubscriptions == old(wsSubscriptions) && awaitingSnapshot == old(awaitingSnapshot)
    {
      if raw.stream.None? {
        return Raised(DecodeError);
      }
      var stream := raw.stream.value;
      ghost var start := View();
      var handled := false;
      var error: Option<PyError> := None;
      var i := 0;
      while i < |WsHandlers| && error.None?
        invariant 0 <= i <= |WsHandlers|
        invariant Valid()
        invariant RunHandlers(start, raw, stream, i) == Dispatch(View(), handled, error)
        invariant logs == old(logs) && wsSubscriptions == old(wsSubscriptions) && awaitingSnapshot == old(awaitingSnapshot)
      {
        var entry := WsHandlers[i];
        if IsSubstring(entry.0, stream) {
          var o := CallHandler(entry.1, raw);
          if o.Raised? {
            error := Some(o.error);
          } else {
            handled := true;
          }
        }
        i := i + 1;
      }
      if error.Some? {
        DispatchStops(start, raw, stream, i, |WsHandlers|);
        logs := logs + [WsError(HandlerFailed(error.value))];
      } else if !handled {
        logs := logs + [WsError(UnrecognisedStream(stream))];
      }
      outcome := Completed;
    }
  }
}
