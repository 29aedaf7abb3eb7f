/** The values the Betfair streaming data client works with: identities, decoded frames,
    parser records, what it emits downstream and what it logs. */
module BetfairTypes {
  import opened Outcomes

  datatype InstrumentId = InstrumentId(value: string)

  datatype MarketId = MarketId(value: string)

  /** A betting instrument: one runner of one market. */
  datatype Instrument = Instrument(id: InstrumentId, marketId: MarketId)

  /** The kinds of regular `Data` the parser produces. */
  datatype DataKind =
    | OrderBookDeltas
    | OrderBookSnapshot
    | TradeTick
    | BetfairTicker
    | InstrumentStatusUpdate
    | InstrumentClose

  /** One object from `BetfairParser.parse`: the two Betfair-specific data types, regular
      data (with its `instrument_id` attribute when it has one), a domain event, or an object
      of any other class. */
  datatype ParsedRecord =
    | StartingPrice(spInstrumentId: InstrumentId)
    | BspDeltas(bspInstrumentId: InstrumentId)
    | Data(kind: DataKind, instrumentId: Option<InstrumentId>)
    | Event
    | Unrecognised

  /** The data type tag of a `GenericData` wrapper. */
  datatype GenericTag = StartingPriceType | BspDeltasType

  /** What the client hands to the data engine through `_handle_data`. */
  datatype Emitted =
    | InstrumentUpdate(instrument: Instrument)
    | Generic(tag: GenericTag, taggedId: InstrumentId, payload: ParsedRecord)
    | Forwarded(record: ParsedRecord)

  /** A market change message: the stream-unreliable flag, the conflation flag of each market
      change in `mc`, and what the parser makes of the message. */
  datatype Mcm = Mcm(streamUnreliable: bool, conflated: seq<bool>, records: seq<ParsedRecord>)

  /** A decoded stream frame. */
  datatype Frame =
    | MarketChange(mcm: Mcm)
    | ConnectionNotice
    | StatusNotice(statusCode: string, connectionClosed: bool)
    | OtherFrame

  datatype Warning =
    | AlreadySubscribed(market: MarketId)
    | UnsubscribeUnsupported
    | EventNotForwarded
    | StreamUnhealthy
    | ConflatedStream

  datatype ErrorLog =
    | CannotResetConnected
    | CannotDisposeConnected
    | FatalStatus

  datatype LogEntry = Warn(warning: Warning) | Error(error: ErrorLog)
}
