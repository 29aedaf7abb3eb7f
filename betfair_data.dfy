/** `BetfairDataClient`: the streaming market data client as an object whose methods update its
    subscription state, emit records to the data engine and log warnings and errors. */
module BetfairData {
  import opened Outcomes
  import opened BetfairTypes
  import opened BetfairSubscription
  import opened BetfairRouting

  /** The calls the client makes on the HTTP client, the stream and the instrument provider. */
  datatype IoEvent = ClientConnect | StreamConnect | LoadAll | StreamDisconnect | ClientDisconnect

  /** Each instrument handed to the data engine, in the provider's order. */
  function InstrumentUpdates(instruments: seq<Instrument>): (r: seq<Emitted>)
    ensures |r| == |instruments|
    ensures forall k :: 0 <= k < |r| ==> r[k] == InstrumentUpdate(instruments[k])
    decreases |instruments|
  {
    if instruments == [] then []
    else InstrumentUpdates(instruments[..|instruments| - 1]) + [InstrumentUpdate(instruments[|instruments| - 1])]
  }

  /** Three heartbeats, one per turn of `_post_connect_heartbeat`'s loop. */
  const Heartbeats: seq<Outbound> := [Heartbeat, Heartbeat, Heartbeat]

  class BetfairDataClient {
    var subscriptionStatus: SubscriptionStatus
    var subscribedMarketIds: set<MarketId>
    var subscribedInstrumentIds: set<InstrumentId>
    const strictHandling: bool
    /** The instrument provider's contents, in `list_all` order. */
    var directory: seq<Instrument>
    var isConnected: bool
    /** Coroutines scheduled on the event loop and not yet run. */
    var tasks: seq<Task>
    /** Messages written to the market stream. */
    var sent: seq<Outbound>
    /** Everything passed to `_handle_data`, in order. */
    var emitted: seq<Emitted>
    var logs: seq<LogEntry>
    var degraded: bool
    var io: seq<IoEvent>

    /** The subscription state as a value of the pure coordinator model. */
    ghost function State(): Coordinator
      reads this
    {
      Coordinator(subscriptionStatus, subscribedMarketIds, subscribedInstrumentIds, tasks, sent)
    }

    /** Every subscribed instrument is known to the provider and its market is subscribed. */
    ghost predicate Valid()
      reads this
    {
      Consistent(State(), directory)
    }

    constructor(directory: seq<Instrument>, strictHandling: bool)
      ensures Valid()
      ensures State() == Initial
      ensures this.directory == directory && this.strictHandling == strictHandling
      ensures !isConnected && emitted == [] && logs == [] && !degraded && io == []
    {
      subscriptionStatus := Unsubscribed;
      subscribedMarketIds := {};
      subscribedInstrumentIds := {};
      this.strictHandling := strictHandling;
      this.directory := directory;
      isConnected := false;
      tasks := [];
      sent := [];
      emitted := [];
      logs := [];
      degraded := false;
      io := [];
    }

    /** Hands every instrument of the provider to the data engine, in order. */
    method HandleInstruments()
      modifies this
      ensures emitted == old(emitted) + InstrumentUpdates(directory)
      ensures State() == old(State()) && directory == old(directory) && isConnected == old(isConnected)
      ensures logs == old(logs) && degraded == old(degraded) && io == old(io)
    {
      var instruments := directory;
      var i := 0;
      while i < |instruments|
        invariant 0 <= i <= |instruments|
        invariant emitted == old(emitted) + InstrumentUpdates(instruments[..i])
        invariant State() == old(State()) && directory == old(directory) && isConnected == old(isConnected)
        invariant logs == old(logs) && degraded == old(degraded) && io == old(io)
      {
        assert instruments[..i + 1][..i] == instruments[..i];
        emitted := emitted + [InstrumentUpdate(instruments[i])];
        i := i + 1;
      }
      assert instruments[..i] == instruments;
    }

    /** `_connect`: log in, open the stream, load the provider only when it is empty, hand
        every instrument to the data engine, then schedule the post-connect heartbeat. */
    method Connect(loaded: seq<Instrument>)
      requires Valid()
      modifies this
      ensures Valid()
      ensures io == old(io) + [ClientConnect, StreamConnect] + (if old(directory) == [] then [LoadAll] else [])
      ensures directory == if old(directory) == [] then loaded else old(directory)
      ensures emitted == old(emitted) + InstrumentUpdates(directory)
      ensures State() == ScheduleHeartbeat(old(State()))
      ensures isConnected
      ensures logs == old(logs) && degraded == old(degraded)
    {
      io := io + [ClientConnect, StreamConnect];
      if |directory| == 0 {
        io := io + [LoadAll];
        assert forall i :: Find(directory, i).None?;
        directory := loaded;
      }
      HandleInstruments();
      tasks := tasks + [PostConnectHeartbeat];
      isConnected := true;
    }

    /** `_disconnect`: close the stream, then the HTTP client. */
    method Disconnect()
      requires Valid()
      modifies this
      ensures Valid()
      ensures io == old(io) + [StreamDisconnect, ClientDisconnect]
      ensures !isConnected
      ensures State() == old(State()) && directory == old(directory)
      ensures emitted == old(emitted) && logs == old(logs) && degraded == old(degraded)
    {
      io := io + [StreamDisconnect, ClientDisconnect];
      isConnected := false;
    }

    /** `_reset`: refused with an error while connected; otherwise forgets the subscribed
        instruments and nothing else. */
    method Reset()
      requires Valid()
      modifies this
      ensures Valid()
      ensures State() == BetfairSubscription.Reset(old(State()), isConnected)
      ensures logs == old(logs) + (if isConnected then [Error(CannotResetConnected)] else [])
      ensures isConnected == old(isConnected) && directory == old(directory)
      ensures emitted == old(emitted) && degraded == old(degraded) && io == old(io)
    {
      if isConnected {
        logs := logs + [Error(CannotResetConnected)];
        return;
      }
      subscribedInstrumentIds := {};
    }

    /** `_dispose`: logs an error while connected and otherwise does nothing. */
    method Dispose()
      modifies this
      ensures logs == old(logs) + (if isConnected then [Error(CannotDisposeConnected)] else [])
      ensures State() == old(State()) && isConnected == old(isConnected) && directory == old(directory)
      ensures emitted == old(emitted) && degraded == old(degraded) && io == old(io)
    {
      if isConnected {
        logs := logs + [Error(CannotDisposeConnected)];
      }
    }

    /** `subscribe_order_book_deltas`: an unknown instrument raises; an instrument of an already
        subscribed market only warns; otherwise market and instrument are added and the
        subscription is scheduled according to the status. */
    method SubscribeOrderBookDeltas(instrumentId: InstrumentId) returns (outcome: Outcome)
      requires Valid()
      modifies this
      ensures Valid()
      ensures (outcome, State()) == SubscribeTo(old(State()), directory, instrumentId)
      ensures logs == old(logs) +
        match Find(directory, instrumentId)
        case Some(inst) => if inst.marketId in old(subscribedMarketIds) then [Warn(AlreadySubscribed(inst.marketId))] else []
        case None => []
      ensures isConnected == old(isConnected) && directory == old(directory)
      ensures emitted == old(emitted) && degraded == old(degraded) && io == old(io)
    {
      ghost var before := State();
      ApplyKeepsConsistent(before, directory, SubscribeOp(instrumentId));
      ghost var after := SubscribeTo(before, directory, instrumentId).1;
      assert Consistent(after, directory);
      var found := Find(directory, instrumentId);
      if found.None? {
        return Raised(AttributeError);
      }
      var instrument := found.value;
      assert after == Subscribe(before, instrument);
      if instrument.marketId in subscribedMarketIds {
        logs := logs + [Warn(AlreadySubscribed(instrument.marketId))];
        return Completed;
      }
      AddMarket(instrument);
      outcome := Completed;
    }

    /** The new-market half of `subscribe_order_book_deltas`: record market and instrument,
        then schedule the subscription according to the status. */
    method AddMarket(instrument: Instrument)
      requires instrument.marketId !in subscribedMarketIds
      modifies this
      ensures State() == Subscribe(old(State()), instrument)
      ensures isConnected == old(isConnected) && directory == old(directory) && logs == old(logs)
      ensures emitted == old(emitted) && degraded == old(degraded) && io == old(io)
    {
      subscribedMarketIds := subscribedMarketIds + {instrument.marketId};
      subscribedInstrumentIds := subscribedInstrumentIds + {instrument.id};
      if subscriptionStatus == Unsubscribed {
        tasks := tasks + [DelayedSubscribe(5)];
        subscriptionStatus := PendingStartup;
      } else if subscriptionStatus == PendingStartup {
      } else if subscriptionStatus == Running {
        tasks := tasks + [DelayedSubscribe(0)];
      }
    }

    /** The event loop runs pending task k: `delayed_subscribe` sends the market set as it is
        when it runs, `_post_connect_heartbeat` sends its three heartbeats. */
    method RunTask(k: nat)
      requires Valid() && k < |tasks|
      modifies this
      ensures Valid()
      ensures State() == Fire(old(State()), k)
      ensures isConnected == old(isConnected) && directory == old(directory)
      ensures emitted == old(emitted) && logs == old(logs) && degraded == old(degraded) && io == old(io)
    {
      ApplyKeepsConsistent(State(), directory, FireOp(k));
      var task := tasks[k];
      tasks := tasks[..k] + tasks[k + 1..];
      match task
      case DelayedSubscribe(_) =>
        sent := sent + [SubscriptionMessage(subscribedMarketIds)];
      case PostConnectHeartbeat =>
        var i := 0;
        while i < 3
          invariant 0 <= i <= 3
          invariant sent == old(sent) + Heartbeats[..i]
          invariant subscriptionStatus == old(subscriptionStatus) && tasks == old(tasks[..k] + tasks[k + 1..])
          invariant subscribedMarketIds == old(subscribedMarketIds) && subscribedInstrumentIds == old(subscribedInstrumentIds)
          invariant isConnected == old(isConnected) && directory == old(directory)
          invariant emitted == old(emitted) && logs == old(logs) && degraded == old(degraded) && io == old(io)
        {
          assert Heartbeats[..i + 1] == Heartbeats[..i] + [Heartbeat];
          sent := sent + [Heartbeat];
          i := i + 1;
        }
        assert Heartbeats[..3] == Heartbeats;
    }

    /** `_subscribe_instrument`: hands every known instrument to the data engine again. */
    method SubscribeInstrument(instrumentId: InstrumentId)
      requires Valid()
      modifies this
      ensures Valid()
      ensures emitted == old(emitted) + InstrumentUpdates(directory)
      ensures State() == old(State()) && directory == old(directory) && isConnected == old(isConnected)
      ensures logs == old(logs) && degraded == old(degraded) && io == old(io)
    {
      HandleInstruments();
    }

    /** `_unsubscribe_order_book_snapshots`: unsupported, only a warning. */
    method UnsubscribeOrderBookSnapshots(instrumentId: InstrumentId)
      requires Valid()
      modifies this
      ensures Valid()
      ensures logs == old(logs) + [Warn(UnsubscribeUnsupported)]
      ensures State() == old(State()) && directory == old(directory) && isConnected == old(isConnected)
      ensures emitted == old(emitted) && degraded == old(degraded) && io == old(io)
    {
      logs := logs + [Warn(UnsubscribeUnsupported)];
    }

    /** `_unsubscribe_order_book_deltas`: unsupported, only a warning. */
    method UnsubscribeOrderBookDeltas(instrumentId: InstrumentId)
      requires Valid()
      modifies this
      ensures Valid()
      ensures logs == old(logs) + [Warn(UnsubscribeUnsupported)]
      ensures State() == old(State()) && directory == old(directory) && isConnected == old(isConnected)
      ensures emitted == old(emitted) && degraded == old(degraded) && io == old(io)
    {
      logs := logs + [Warn(UnsubscribeUnsupported)];
    }

    /** `_check_stream_unhealthy`: warns and degrades on an unreliable stream, then warns once
        per conflated market change. */
    method CheckStreamUnhealthy(m: Mcm)
      modifies this
      ensures logs == old(logs) + HealthWarnings(m)
      ensures degraded == (old(degraded) || m.streamUnreliable)
      ensures State() == old(State()) && directory == old(directory) && isConnected == old(isConnected)
      ensures emitted == old(emitted) && io == old(io)
    {
      if m.streamUnreliable {
        logs := logs + [Warn(StreamUnhealthy)];
        degraded := true;
      }
      var before := logs;
      var j := 0;
      while j < |m.conflated|
        invariant 0 <= j <= |m.conflated|
        invariant logs == before + ConflationWarnings(m.conflated[..j])
        invariant before == old(logs) + (if m.streamUnreliable then [Warn(StreamUnhealthy)] else [])
        invariant degraded == (old(degraded) || m.streamUnreliable)
        invariant State() == old(State()) && directory == old(directory) && isConnected == old(isConnected)
        invariant emitted == old(emitted) && io == old(io)
      {
        assert m.conflated[..j + 1][..j] == m.conflated[..j];
        if m.conflated[j] {
          logs := logs + [Warn(ConflatedStream)];
        }
        j := j + 1;
      }
      assert m.conflated[..j] == m.conflated;
    }

    /** `_on_market_update`'s loop: every parser record in order through the routing rules,
        stopping with RuntimeError at a record of an unknown kind. */
    method RouteRecords(records: seq<ParsedRecord>) returns (outcome: Outcome)
      modifies this
      ensures var routed := Route(strictHandling, subscribedInstrumentIds, records);
        && emitted == old(emitted) + routed.emitted
        && logs == old(logs) + routed.logs
        && outcome == (if routed.error.Some? then Raised(routed.error.value) else Completed)
      ensures State() == old(State()) && directory == old(directory) && isConnected == old(isConnected)
      ensures degraded == old(degraded) && io == old(io)
    {
      var subscribed := subscribedInstrumentIds;
      ghost var routed := Routed([], [], None);
      var i := 0;
      while i < |records|
        invariant 0 <= i <= |records|
        invariant routed == Route(strictHandling, subscribed, records[..i]) && routed.error.None?
        invariant emitted == old(emitted) + routed.emitted && logs == old(logs) + routed.logs
        invariant State() == old(State()) && directory == old(directory) && isConnected == old(isConnected)
        invariant degraded == old(degraded) && io == old(io)
      {
        var data := records[i];
        RouteSnoc(strictHandling, subscribed, records, i);
        routed := Then(routed, RouteOne(strictHandling, subscribed, data));
        var failed := HandleRecord(data, subscribed);
        if failed {
          RouteAppend(strictHandling, subscribed, records[..i + 1], records[i + 1..]);
          assert records[..i + 1] + records[i + 1..] == records;
          return Raised(RuntimeError);
        }
        i := i + 1;
      }
      assert records[..i] == records;
      outcome := Completed;
    }

    /** The loop body of `_on_market_update` for one parser record: starting prices and BSP
        deltas are wrapped as generic data, regular data is forwarded unless the strict filter
        drops it, events are only logged, and anything else makes the loop raise. */
    method HandleRecord(data: ParsedRecord, subscribed: set<InstrumentId>) returns (failed: bool)
      modifies this
      ensures var step := RouteOne(strictHandling, subscribed, data);
        && failed == step.Fail?
        && emitted == old(emitted) + (if step.Emit? then [step.e] else [])
        && logs == old(logs) + (if step.Log? then [step.entry] else [])
      ensures State() == old(State()) && directory == old(directory) && isConnected == old(isConnected)
      ensures degraded == old(degraded) && io == old(io)
    {
      failed := false;
      match data {
        case StartingPrice(id) =>
          emitted := emitted + [Generic(StartingPriceType, id, data)];
        case BspDeltas(id) =>
          emitted := emitted + [Generic(BspDeltasType, id, data)];
        case Data(_, instrumentId) =>
          // With strict handling, data for an instrument not subscribed is skipped.
          if !(strictHandling && instrumentId.Some? && instrumentId.value !in subscribed) {
            emitted := emitted + [Forwarded(data)];
          }
        case Event =>
          logs := logs + [Warn(EventNotForwarded)];
        case Unrecognised =>
          failed := true;
      }
    }

    /** `_on_market_update`: the health check, then the parser's records. */
    method OnMcm(m: Mcm) returns (outcome: Outcome)
      modifies this
      ensures var routed := Route(strictHandling, subscribedInstrumentIds, m.records);
        && emitted == old(emitted) + routed.emitted
        && logs == old(logs) + HealthWarnings(m) + routed.logs
        && outcome == (if routed.error.Some? then Raised(routed.error.value) else Completed)
      ensures degraded == (old(degraded) || m.streamUnreliable)
      ensures State() == old(State()) && directory == old(directory) && isConnected == old(isConnected)
      ensures io == old(io)
    {
      CheckStreamUnhealthy(m);
      outcome := RouteRecords(m.records);
    }

    /** `_handle_status_message`: a FAILURE that closed the connection is logged and raised;
        any other status is ignored. */
    method HandleStatusMessage(statusCode: string, connectionClosed: bool) returns (outcome: Outcome)
      modifies this
      ensures outcome == (if StatusFatal(statusCode, connectionClosed) then Raised(RuntimeError) else Completed)
      ensures logs == old(logs) + (if StatusFatal(statusCode, connectionClosed) then [Error(FatalStatus)] else [])
      ensures State() == old(State()) && directory == old(directory) && isConnected == old(isConnected)
      ensures emitted == old(emitted) && degraded == old(degraded) && io == old(io)
    {
      if statusCode == "FAILURE" && connectionClosed {
        logs := logs + [Error(FatalStatus)];
        return Raised(RuntimeError);
      }
      outcome := Completed;
    }

    /** `on_market_update`: dispatch on the decoded frame. An undecodable frame raises the
        decoder's error, a connection notice is ignored, and any frame kind other than a market
        change, a connection notice or a status raises RuntimeError. */
    method OnMarketUpdate(decoded: Option<Frame>) returns (outcome: Outcome)
      requires Valid()
      modifies this
      ensures Valid()
      ensures decoded.None? ==> outcome == Raised(DecodeError)
      ensures decoded == Some(OtherFrame) ==> outcome == Raised(RuntimeError)
      ensures decoded == Some(ConnectionNotice) ==> outcome == Completed
      ensures (decoded.None? || decoded == Some(OtherFrame) || decoded == Some(ConnectionNotice)) ==>
        emitted == old(emitted) && logs == old(logs) && degraded == old(degraded)
      ensures decoded.Some? && decoded.value.StatusNotice? ==>
        var fatal := StatusFatal(decoded.value.statusCode, decoded.value.connectionClosed);
        && outcome == (if fatal then Raised(RuntimeError) else Completed)
        && logs == old(logs) + (if fatal then [Error(FatalStatus)] else [])
        && emitted == old(emitted) && degraded == old(degraded)
      ensures decoded.Some? && decoded.value.MarketChange? ==>
        var m := decoded.value.mcm;
        var routed := Route(strictHandling, subscribedInstrumentIds, m.records);
        && emitted == old(emitted) + routed.emitted
        && logs == old(logs) + HealthWarnings(m) + routed.logs
        && outcome == (if routed.error.Some? then Raised(routed.error.value) else Completed)
        && degraded == (old(degraded) || m.streamUnreliable)
      ensures State() == old(State()) && directory == old(directory) && isConnected == old(isConnected)
      ensures io == old(io)
    {
      match decoded
      case None =>
        outcome := Raised(DecodeError);
      case Some(frame) =>
        match frame
        case MarketChange(m) =>
          outcome := OnMcm(m);
        case ConnectionNotice =>
          outcome := Completed;
        case StatusNotice(statusCode, connectionClosed) =>
          outcome := HandleStatusMessage(statusCode, connectionClosed);
        case OtherFrame =>
          outcome := Raised(RuntimeError);
    }
  }
}
