/** The subscription side of the Betfair data client as a value: the subscription status, the
    subscribed market and instrument sets, the tasks waiting on the event loop and the messages
    sent on the stream. The class in module BetfairData is proved against these functions. */
module BetfairSubscription {
  import opened Outcomes
  import opened BetfairTypes

  datatype SubscriptionStatus = Unsubscribed | PendingStartup | Running

  /** A coroutine handed to `loop.create_task` and not yet run. */
  datatype Task = DelayedSubscribe(delay: nat) | PostConnectHeartbeat

  /** A message written to the market stream. */
  datatype Outbound = SubscriptionMessage(marketIds: set<MarketId>) | Heartbeat

  datatype Coordinator = Coordinator(
    status: SubscriptionStatus,
    markets: set<MarketId>,
    instruments: set<InstrumentId>,
    tasks: seq<Task>,
    sent: seq<Outbound>)

  /** A freshly constructed client. */
  const Initial := Coordinator(Unsubscribed, {}, {}, [], [])

  /** The instrument provider's `find`: the first instrument with that id, if any. */
  function Find(directory: seq<Instrument>, id: InstrumentId): (r: Option<Instrument>)
    ensures r.Some? ==> r.value in directory && r.value.id == id
    ensures r.None? <==> forall k :: 0 <= k < |directory| ==> directory[k].id != id
  {
    if directory == [] then None
    else if directory[0].id == id then Some(directory[0])
    else Find(directory[1..], id)
  }

  /** `subscribe_order_book_deltas` for an instrument the provider knows. */
  function Subscribe(c: Coordinator, inst: Instrument): (r: Coordinator)
    ensures inst.marketId in c.markets ==> r == c
    ensures inst.marketId !in c.markets ==>
      r.markets == c.markets + {inst.marketId} && r.instruments == c.instruments + {inst.id}
    ensures r.sent == c.sent
    ensures c.status == Unsubscribed && inst.marketId !in c.markets ==>
      r.status == PendingStartup && r.tasks == c.tasks + [DelayedSubscribe(5)]
    ensures c.status == Unsubscribed && inst.marketId in c.markets ==> r.status == Unsubscribed
    ensures c.status == PendingStartup ==> r.status == PendingStartup && r.tasks == c.tasks
    ensures c.status == Running ==>
      r.status == Running && r.tasks == c.tasks + (if inst.marketId in c.markets then [] else [DelayedSubscribe(0)])
  {
    if inst.marketId in c.markets then c
    else
      var added := c.(markets := c.markets + {inst.marketId}, instruments := c.instruments + {inst.id});
      match c.status
      case Unsubscribed => added.(status := PendingStartup, tasks := c.tasks + [DelayedSubscribe(5)])
      case PendingStartup => added
      case Running => added.(tasks := c.tasks + [DelayedSubscribe(0)])
  }

  /** `subscribe_order_book_deltas` by instrument id: `find` returns None for an unknown id and
      reading `market_id` from it raises AttributeError before anything changes. */
  function SubscribeTo(c: Coordinator, directory: seq<Instrument>, id: InstrumentId): (r: (Outcome, Coordinator))
    ensures r.0 == Raised(AttributeError) <==> Find(directory, id).None?
    ensures r.0.Raised? ==> r.1 == c
    ensures r.0 == Completed ==> r.1 == Subscribe(c, Find(directory, id).value)
  {
    match Find(directory, id)
    case None => (Raised(AttributeError), c)
    case Some(inst) => (Completed, Subscribe(c, inst))
  }

  /** Running pending task k: a delayed subscribe sends the market set as it is now and leaves
      the status alone; the post-connect heartbeat sends three heartbeats. */
  function Fire(c: Coordinator, k: nat): (r: Coordinator)
    requires k < |c.tasks|
    ensures r.status == c.status && r.markets == c.markets && r.instruments == c.instruments
    ensures |r.tasks| == |c.tasks| - 1
    ensures multiset(r.tasks) + multiset{c.tasks[k]} == multiset(c.tasks)
    ensures c.tasks[k].DelayedSubscribe? ==> r.sent == c.sent + [SubscriptionMessage(c.markets)]
    ensures c.tasks[k].PostConnectHeartbeat? ==> r.sent == c.sent + [Heartbeat, Heartbeat, Heartbeat]
  {
    var rest := c.tasks[..k] + c.tasks[k + 1..];
    assert c.tasks == c.tasks[..k] + [c.tasks[k]] + c.tasks[k + 1..];
    match c.tasks[k]
    case DelayedSubscribe(_) => c.(tasks := rest, sent := c.sent + [SubscriptionMessage(c.markets)])
    case PostConnectHeartbeat => c.(tasks := rest, sent := c.sent + [Heartbeat, Heartbeat, Heartbeat])
  }

  /** `_reset`: refused while connected; otherwise only the instrument set is emptied. */
  function Reset(c: Coordinator, connected: bool): (r: Coordinator)
    ensures connected ==> r == c
    ensures !connected ==> r.instruments == {}
    ensures r.status == c.status && r.markets == c.markets && r.tasks == c.tasks && r.sent == c.sent
  {
    if connected then c else c.(instruments := {})
  }

  /** The scheduling part of `_connect`. */
  function ScheduleHeartbeat(c: Coordinator): (r: Coordinator)
    ensures r.tasks == c.tasks + [PostConnectHeartbeat]
    ensures r.status == c.status && r.markets == c.markets && r.instruments == c.instruments && r.sent == c.sent
  {
    c.(tasks := c.tasks + [PostConnectHeartbeat])
  }

  /** The subscription calls strategies make, in order, failures included. */
  function SubscribeAll(c: Coordinator, directory: seq<Instrument>, ids: seq<InstrumentId>): Coordinator
    decreases |ids|
  {
    if ids == [] then c
    else SubscribeTo(SubscribeAll(c, directory, ids[..|ids| - 1]), directory, ids[|ids| - 1]).1
  }

  /** The markets of the requested instruments the provider knows. */
  function FoundMarkets(directory: seq<Instrument>, ids: seq<InstrumentId>): set<MarketId>
    decreases |ids|
  {
    if ids == [] then {}
    else
      FoundMarkets(directory, ids[..|ids| - 1]) +
      match Find(directory, ids[|ids| - 1])
      case None => {}
      case Some(inst) => {inst.marketId}
  }

  /** Every subscribed instrument is known to the provider and its market is subscribed. */
  ghost predicate Covered(c: Coordinator, directory: seq<Instrument>)
  {
    forall i :: i in c.instruments ==> Find(directory, i).Some? && Find(directory, i).value.marketId in c.markets
  }

  /** What holds of a client that has only ever received subscriptions. */
  ghost predicate Startup(c: Coordinator, directory: seq<Instrument>)
  {
    && Covered(c, directory)
    && |c.instruments| == |c.markets|
    && c.sent == []
    && c.status != Running
    && (c.status == Unsubscribed <==> c.markets == {})
    && c.tasks == (if c.status == Unsubscribed then [] else [DelayedSubscribe(5)])
  }

  /** A market not yet subscribed has none of the subscribed instruments in it. */
  lemma NewMarketNewInstrument(c: Coordinator, directory: seq<Instrument>, inst: Instrument)
    requires Covered(c, directory) && inst in directory && inst.marketId !in c.markets
    requires Find(directory, inst.id) == Some(inst)
    ensures inst.id !in c.instruments
  {
  }

  lemma {:induction false} SubscribeKeepsStartup(c: Coordinator, directory: seq<Instrument>, id: InstrumentId)
    requires Startup(c, directory)
    ensures Startup(SubscribeTo(c, directory, id).1, directory)
  {
    var f := Find(directory, id);
    if f.Some? && f.value.marketId !in c.markets {
      var inst := f.value;
      NewMarketNewInstrument(c, directory, inst);
      var r := Subscribe(c, inst);
      assert |r.instruments| == |c.instruments| + 1;
      assert |r.markets| == |c.markets| + 1;
      forall i | i in r.instruments
        ensures Find(directory, i).Some? && Find(directory, i).value.marketId in r.markets
      {
        if i != inst.id {
          assert i in c.instruments;
        }
      }
    }
  }

  /** Any run of subscriptions from a fresh client subscribes exactly the markets of the known
      instruments asked for, keeps one instrument per market, never reaches RUNNING, sends
      nothing yet and leaves at most one delayed send, with delay 5, waiting. */
  lemma {:induction false} StartupBatch(directory: seq<Instrument>, ids: seq<InstrumentId>)
    ensures Startup(SubscribeAll(Initial, directory, ids), directory)
    ensures SubscribeAll(Initial, directory, ids).markets == FoundMarkets(directory, ids)
    decreases |ids|
  {
    if ids != [] {
      var init := ids[..|ids| - 1];
      StartupBatch(directory, init);
      var c := SubscribeAll(Initial, directory, init);
      SubscribeKeepsStartup(c, directory, ids[|ids| - 1]);
    }
  }

  /** When the single delayed send fires it transmits every market subscribed before it ran,
      however many calls the batch was made of. */
  lemma BatchSentOnce(directory: seq<Instrument>, ids: seq<InstrumentId>)
    requires FoundMarkets(directory, ids) != {}
    ensures SubscribeAll(Initial, directory, ids).tasks == [DelayedSubscribe(5)]
    ensures Fire(SubscribeAll(Initial, directory, ids), 0).sent == [SubscriptionMessage(FoundMarkets(directory, ids))]
    ensures Fire(SubscribeAll(Initial, directory, ids), 0).tasks == []
  {
    StartupBatch(directory, ids);
  }

  function Rank(s: SubscriptionStatus): nat
  {
    match s
    case Unsubscribed => 0
    case PendingStartup => 1
    case Running => 2
  }

  /** Subscribing only ever adds: both sets grow, the status never goes back, the pending tasks
      and sent messages are only extended. */
  lemma {:induction false} SubscribeAllGrows(c: Coordinator, directory: seq<Instrument>, ids: seq<InstrumentId>)
    ensures c.markets <= SubscribeAll(c, directory, ids).markets
    ensures c.instruments <= SubscribeAll(c, directory, ids).instruments
    ensures Rank(c.status) <= Rank(SubscribeAll(c, directory, ids).status)
    ensures c.tasks <= SubscribeAll(c, directory, ids).tasks
    ensures SubscribeAll(c, directory, ids).sent == c.sent
    decreases |ids|
  {
    if ids != [] {
      SubscribeAllGrows(c, directory, ids[..|ids| - 1]);
    }
  }

  /** The calls that reach the coordinator: subscriptions, running a pending task, `_reset`,
      `_connect`'s scheduling, and the unsubscribe stubs. */
  datatype Op =
    | SubscribeOp(id: InstrumentId)
    | FireOp(k: nat)
    | ResetOp(connected: bool)
    | ConnectOp
    | UnsubscribeOp(unsubscribedId: InstrumentId)

  /** One call; a FireOp naming no pending task does nothing. */
  function Apply(c: Coordinator, directory: seq<Instrument>, op: Op): Coordinator
  {
    match op
    case SubscribeOp(id) => SubscribeTo(c, directory, id).1
    case FireOp(k) => if k < |c.tasks| then Fire(c, k) else c
    case ResetOp(connected) => Reset(c, connected)
    case ConnectOp => ScheduleHeartbeat(c)
    case UnsubscribeOp(_) => c
  }

  function Run(c: Coordinator, directory: seq<Instrument>, ops: seq<Op>): Coordinator
    decreases |ops|
  {
    if ops == [] then c else Run(Apply(c, directory, ops[0]), directory, ops[1..])
  }

  /** Safe state: every subscribed instrument's market is subscribed, and there are no more
      subscribed instruments than markets. */
  ghost predicate Consistent(c: Coordinator, directory: seq<Instrument>)
  {
    Covered(c, directory) && |c.instruments| <= |c.markets|
  }

  lemma ApplyKeepsConsistent(c: Coordinator, directory: seq<Instrument>, op: Op)
    requires Consistent(c, directory)
    ensures Consistent(Apply(c, directory, op), directory)
    ensures c.markets <= Apply(c, directory, op).markets
    ensures c.status != Running ==> Apply(c, directory, op).status != Running
  {
    if op.SubscribeOp? {
      var f := Find(directory, op.id);
      if f.Some? && f.value.marketId !in c.markets {
        var inst := f.value;
        NewMarketNewInstrument(c, directory, inst);
        var r := Subscribe(c, inst);
        assert |r.instruments| == |c.instruments| + 1;
        assert |r.markets| == |c.markets| + 1;
        forall i | i in r.instruments
          ensures Find(directory, i).Some? && Find(directory, i).value.marketId in r.markets
        {
          if i != inst.id {
            assert i in c.instruments;
          }
        }
      }
    }
  }

  /** Whatever the calls, a client that is not RUNNING never becomes RUNNING, the market set
      never shrinks, and every subscribed instrument's market stays subscribed. */
  lemma {:induction false} RunKeepsConsistent(c: Coordinator, directory: seq<Instrument>, ops: seq<Op>)
    requires Consistent(c, directory)
    ensures Consistent(Run(c, directory, ops), directory)
    ensures c.markets <= Run(c, directory, ops).markets
    ensures c.status != Running ==> Run(c, directory, ops).status != Running
    decreases |ops|
  {
    if ops != [] {
      ApplyKeepsConsistent(c, directory, ops[0]);
      RunKeepsConsistent(Apply(c, directory, ops[0]), directory, ops[1..]);
    }
  }

  /** A fresh client is consistent, so the lemma above covers every client. */
  lemma InitialConsistent(directory: seq<Instrument>)
    ensures Consistent(Initial, directory)
    ensures Initial.status != Running
  {
  }
}
