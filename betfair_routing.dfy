/** What `_on_market_update` and `_check_stream_unhealthy` do with one market change message,
    as functions of the parser's records. The class in module BetfairData is proved against them. */
module BetfairRouting {
  import opened Outcomes
  import opened BetfairTypes

  /** What happens to one parser record. */
  datatype Step = Emit(e: Emitted) | Drop | Log(entry: LogEntry) | Fail

  /** Whether the strict filter drops a regular data record: it names an instrument that is not
      subscribed. Records without an `instrument_id` are never dropped. */
  predicate StrictDrops(strict: bool, subscribed: set<InstrumentId>, r: ParsedRecord)
  {
    strict && r.Data? && r.instrumentId.Some? && r.instrumentId.value !in subscribed
  }

  /** The body of `_on_market_update`'s loop for one record. */
  function RouteOne(strict: bool, subscribed: set<InstrumentId>, r: ParsedRecord): (s: Step)
    ensures s.Fail? <==> r.Unrecognised?
    ensures s.Drop? <==> StrictDrops(strict, subscribed, r)
    ensures s.Log? <==> r.Event?
    ensures s.Emit? && s.e.Forwarded? ==> s.e.record == r
  {
    match r
    case StartingPrice(id) => Emit(Generic(StartingPriceType, id, r))
    case BspDeltas(id) => Emit(Generic(BspDeltasType, id, r))
    case Data(_, _) => if StrictDrops(strict, subscribed, r) then Drop else Emit(Forwarded(r))
    case Event => Log(Warn(EventNotForwarded))
    case Unrecognised => Fail
  }

  /** Everything emitted and logged for a record sequence, and the exception that stopped it. */
  datatype Routed = Routed(emitted: seq<Emitted>, logs: seq<LogEntry>, error: Option<PyError>)

  /** Adds one record's step to what the records before it produced; after a raise, nothing. */
  function Then(prev: Routed, s: Step): Routed
  {
    if prev.error.Some? then prev
    else match s
      case Emit(e) => prev.(emitted := prev.emitted + [e])
      case Drop => prev
      case Log(entry) => prev.(logs := prev.logs + [entry])
      case Fail => prev.(error := Some(RuntimeError))
  }

  /** The loop over the parser's output, one record at a time from the front. */
  function Route(strict: bool, subscribed: set<InstrumentId>, records: seq<ParsedRecord>): Routed
    decreases |records|
  {
    if records == [] then Routed([], [], None)
    else Then(Route(strict, subscribed, records[..|records| - 1]), RouteOne(strict, subscribed, records[|records| - 1]))
  }

  /** The records up to and including record i are routed by routing those before it, then it. */
  lemma RouteSnoc(strict: bool, subscribed: set<InstrumentId>, records: seq<ParsedRecord>, i: nat)
    requires i < |records|
    ensures Route(strict, subscribed, records[..i + 1]) ==
      Then(Route(strict, subscribed, records[..i]), RouteOne(strict, subscribed, records[i]))
  {
    assert records[..i + 1][..i] == records[..i];
  }

  /** Routing a concatenation routes the first part, then carries on with the second unless the
      first raised: no record overtakes one that came before it. */
  lemma {:induction false} RouteAppend(strict: bool, subscribed: set<InstrumentId>, a: seq<ParsedRecord>, b: seq<ParsedRecord>)
    ensures var ra := Route(strict, subscribed, a);
            var rb := Route(strict, subscribed, b);
            Route(strict, subscribed, a + b) ==
              if ra.error.Some? then ra
              else Routed(ra.emitted + rb.emitted, ra.logs + rb.logs, rb.error)
    decreases |b|
  {
    if b == [] {
      assert a + b == a;
    } else {
      var b0 := b[..|b| - 1];
      assert (a + b)[..|a + b| - 1] == a + b0;
      assert (a + b)[|a + b| - 1] == b[|b| - 1];
      RouteAppend(strict, subscribed, a, b0);
      var ra := Route(strict, subscribed, a);
      var rb0 := Route(strict, subscribed, b0);
      if ra.error.None? && rb0.error.None? {
        var s := RouteOne(strict, subscribed, b[|b| - 1]);
        match s
        case Emit(e) =>
          assert (ra.emitted + rb0.emitted) + [e] == ra.emitted + (rb0.emitted + [e]);
        case Log(entry) =>
          assert (ra.logs + rb0.logs) + [entry] == ra.logs + (rb0.logs + [entry]);
        case Drop =>
        case Fail =>
      }
    }
  }

  /** The parser's records are routed one after the other: routing a sequence is routing its
      first record and then the rest. */
  lemma RouteCons(strict: bool, subscribed: set<InstrumentId>, r: ParsedRecord, rest: seq<ParsedRecord>)
    ensures var first := Then(Routed([], [], None), RouteOne(strict, subscribed, r));
            var tail := Route(strict, subscribed, rest);
            Route(strict, subscribed, [r] + rest) ==
              if first.error.Some? then first
              else Routed(first.emitted + tail.emitted, first.logs + tail.logs, tail.error)
  {
    assert [r][..0] == [];
    RouteAppend(strict, subscribed, [r], rest);
  }

  /** The call raises exactly when some record is of an unrecognised kind. */
  lemma {:induction false} RouteRaises(strict: bool, subscribed: set<InstrumentId>, records: seq<ParsedRecord>)
    ensures Route(strict, subscribed, records).error.Some? <==> Unrecognised in records
    ensures Route(strict, subscribed, records).error.Some? ==> Route(strict, subscribed, records).error == Some(RuntimeError)
    decreases |records|
  {
    if records != [] {
      var init := records[..|records| - 1];
      RouteRaises(strict, subscribed, init);
      assert records == init + [records[|records| - 1]];
    }
  }

  /** With strict handling on, nothing emitted is regular data for an instrument outside the
      subscribed set. */
  lemma {:induction false} StrictSound(subscribed: set<InstrumentId>, records: seq<ParsedRecord>)
    ensures forall e ::
      (e in Route(true, subscribed, records).emitted && e.Forwarded? && e.record.Data? && e.record.instrumentId.Some?) ==>
        e.record.instrumentId.value in subscribed
    decreases |records|
  {
    if records != [] {
      StrictSound(subscribed, records[..|records| - 1]);
    }
  }

  /** Everything emitted is one of the parser's records, either forwarded as it is or wrapped
      with its own instrument id. */
  lemma {:induction false} EmittedFromRecords(strict: bool, subscribed: set<InstrumentId>, records: seq<ParsedRecord>)
    ensures forall e :: e in Route(strict, subscribed, records).emitted ==>
      (e.Forwarded? && e.record.Data? && e.record in records) ||
      (e.Generic? && e.payload in records &&
        (e.payload == StartingPrice(e.taggedId) || e.payload == BspDeltas(e.taggedId)))
    decreases |records|
  {
    if records != [] {
      var init := records[..|records| - 1];
      EmittedFromRecords(strict, subscribed, init);
      assert forall r :: r in init ==> r in records;
    }
  }

  /** Every record before the first unrecognised one is handled: starting prices and BSP deltas
      are always wrapped and emitted, regular data is emitted unless the strict filter drops it,
      and every event logs a warning. */
  lemma {:induction false} RouteComplete(strict: bool, subscribed: set<InstrumentId>, records: seq<ParsedRecord>, k: nat)
    requires k < |records| && Unrecognised !in records[..k + 1]
    ensures records[k].StartingPrice? ==>
      Generic(StartingPriceType, records[k].spInstrumentId, records[k]) in Route(strict, subscribed, records).emitted
    ensures records[k].BspDeltas? ==>
      Generic(BspDeltasType, records[k].bspInstrumentId, records[k]) in Route(strict, subscribed, records).emitted
    ensures records[k].Data? && !StrictDrops(strict, subscribed, records[k]) ==>
      Forwarded(records[k]) in Route(strict, subscribed, records).emitted
    ensures records[k].Event? ==> Warn(EventNotForwarded) in Route(strict, subscribed, records).logs
  {
    var a := records[..k + 1];
    var b := records[k + 1..];
    assert records == a + b;
    RouteRaises(strict, subscribed, a);
    RouteAppend(strict, subscribed, a, b);
    var a0 := records[..k];
    assert a[..|a| - 1] == a0;
    RouteRaises(strict, subscribed, a0);
    assert Unrecognised !in a0 by {
      assert forall r :: r in a0 ==> r in a;
    }
  }

  /** Without strict handling every regular data record before the first unrecognised one is
      forwarded. */
  lemma NonStrictForwardsAll(subscribed: set<InstrumentId>, records: seq<ParsedRecord>, k: nat)
    requires k < |records| && Unrecognised !in records[..k + 1] && records[k].Data?
    ensures Forwarded(records[k]) in Route(false, subscribed, records).emitted
  {
    RouteComplete(false, subscribed, records, k);
  }

  /** Starting prices and BSP deltas do not depend on the filter: strict or not, subscribed or
      not, the same wrapped records come out, along with the same logs and the same raise. */
  lemma {:induction false} GenericIndependentOfFilter(s1: bool, sub1: set<InstrumentId>, s2: bool, sub2: set<InstrumentId>, records: seq<ParsedRecord>)
    ensures Generics(Route(s1, sub1, records).emitted) == Generics(Route(s2, sub2, records).emitted)
    ensures Route(s1, sub1, records).logs == Route(s2, sub2, records).logs
    ensures Route(s1, sub1, records).error == Route(s2, sub2, records).error
    decreases |records|
  {
    if records != [] {
      var init := records[..|records| - 1];
      GenericIndependentOfFilter(s1, sub1, s2, sub2, init);
      var last := records[|records| - 1];
      ThenAgrees(Route(s1, sub1, init), Route(s2, sub2, init), RouteOne(s1, sub1, last), RouteOne(s2, sub2, last));
    }
  }

  /** Two partial routings that agree on wrapped records, logs and raise still agree after one
      more record, when the two steps differ at most in whether a regular record got through. */
  lemma ThenAgrees(p1: Routed, p2: Routed, t1: Step, t2: Step)
    requires Generics(p1.emitted) == Generics(p2.emitted) && p1.logs == p2.logs && p1.error == p2.error
    requires t1 == t2 || ((t1.Drop? || (t1.Emit? && t1.e.Forwarded?)) && (t2.Drop? || (t2.Emit? && t2.e.Forwarded?)))
    ensures Generics(Then(p1, t1).emitted) == Generics(Then(p2, t2).emitted)
    ensures Then(p1, t1).logs == Then(p2, t2).logs && Then(p1, t1).error == Then(p2, t2).error
  {
    if t1.Emit? {
      GenericsAppend(p1.emitted, t1.e);
    }
    if t2.Emit? {
      GenericsAppend(p2.emitted, t2.e);
    }
  }

  /** The wrapped Betfair-specific records among the emitted ones, in order. */
  function Generics(es: seq<Emitted>): seq<Emitted>
    decreases |es|
  {
    if es == [] then []
    else Generics(es[..|es| - 1]) + (if es[|es| - 1].Generic? then [es[|es| - 1]] else [])
  }

  lemma GenericsAppend(es: seq<Emitted>, e: Emitted)
    ensures Generics(es + [e]) == Generics(es) + (if e.Generic? then [e] else [])
  {
    assert (es + [e])[..|es|] == es;
  }

  /** The warnings `_check_stream_unhealthy` logs: one for an unreliable stream, then one per
      conflated market change, in order. */
  function HealthWarnings(m: Mcm): (w: seq<LogEntry>)
  {
    (if m.streamUnreliable then [Warn(StreamUnhealthy)] else []) + ConflationWarnings(m.conflated)
  }

  function ConflationWarnings(con: seq<bool>): seq<LogEntry>
    decreases |con|
  {
    if con == [] then []
    else ConflationWarnings(con[..|con| - 1]) + (if con[|con| - 1] then [Warn(ConflatedStream)] else [])
  }

  function CountTrue(con: seq<bool>): nat
  {
    |set i | 0 <= i < |con| && con[i]|
  }

  /** One conflation warning per conflated market change and nothing else. */
  lemma {:induction false} ConflationWarningsCount(con: seq<bool>)
    ensures |ConflationWarnings(con)| == CountTrue(con)
    ensures forall w :: w in ConflationWarnings(con) ==> w == Warn(ConflatedStream)
    decreases |con|
  {
    if con != [] {
      var init := con[..|con| - 1];
      ConflationWarningsCount(init);
      var n := |con| - 1;
      var before := set i | 0 <= i < n && init[i];
      var now := set i | 0 <= i < |con| && con[i];
      if con[n] {
        assert now == before + {n};
      } else {
        assert now == before;
      }
    }
  }

  /** `_check_stream_unhealthy` warns about an unhealthy stream exactly when it is unreliable
      and once per conflated market change; it never raises and nothing else is logged. */
  lemma HealthWarningsShape(m: Mcm)
    ensures |HealthWarnings(m)| == (if m.streamUnreliable then 1 else 0) + CountTrue(m.conflated)
    ensures Warn(StreamUnhealthy) in HealthWarnings(m) <==> m.streamUnreliable
    ensures forall w :: w in HealthWarnings(m) ==> w == Warn(StreamUnhealthy) || w == Warn(ConflatedStream)
  {
    ConflationWarningsCount(m.conflated);
  }

  /** `_handle_status_message`: only a FAILURE that closed the connection is fatal. */
  predicate StatusFatal(statusCode: string, connectionClosed: bool)
  {
    statusCode == "FAILURE" && connectionClosed
  }
}
