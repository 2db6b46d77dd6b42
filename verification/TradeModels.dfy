/** The values of collector/collector_agent/trade_models.py. Strings the collector only
    compares (record ids, revisions, symbols, platform and account names) are integers in
    the same order, timestamps are integers in seconds, and decimals are reals. */
module TradeModels {
  import opened Prelude

  /** The one platform whose subscriptions are trade ledgers. */
  const BINANCE_COPY := 0

  datatype Operation = Increase | Decrease | Open | Add | Reduce | Close | Reverse

  datatype Action = DidOpen | DidAdd | DidReduce | DidClose | DidReverse | Correction

  datatype Side = Long | Short | Flat | NoSide

  /** The side a bucket is kept for: a record is never filed under FLAT. */
  type BucketSide = s: Side | s != Flat witness Long

  datatype Confidence = High | Medium | Low | NoConfidence

  datatype Status = Active | Closed | Unknown | Stale

  datatype Key = Key(symbol: int, bucket: BucketSide)

  datatype Checkpoint = Checkpoint(eventTime: int, recordId: int)

  datatype Record = Record(
    platform: int, accountId: int, id: int, revision: int, op: Operation,
    symbol: int, bucket: BucketSide,
    quantity: Option<real>, price: Option<real>, leverage: Option<real>,
    eventTime: int, observedAt: int, source: int)
  {
    function Slot(): Key { Key(symbol, bucket) }

    /** Order of the revisions of one record: the last observed wins. */
    predicate RevisedBy(other: Record) {
      observedAt < other.observedAt
      || (observedAt == other.observedAt && revision < other.revision)
    }
  }

  datatype Position = Position(
    symbol: int, bucket: BucketSide, side: Side, quantity: Option<real>,
    confidence: Confidence, status: Status, asOf: Option<int>,
    staleSince: Option<int> := None,
    entry: Option<real> := None, leverage: Option<real> := None,
    mark: Option<real> := None, notional: Option<real> := None,
    margin: Option<real> := None, pnl: Option<real> := None,
    priceAt: Option<int> := None)
  {
    function Slot(): Key { Key(symbol, bucket) }
  }

  type Positions = map<Key, Position>

  datatype Event = Event(record: Record, action: Action, after: Position)

  datatype Reconciliation = Reconciliation(events: seq<Event>, positions: Positions)

  datatype Account = Account(marginBalance: Option<real>, observedAt: int)

  datatype FetchResult = FetchResult(
    records: seq<Record>, candidate: Option<Checkpoint>, complete: bool,
    account: Option<Account>, marks: map<int, real>)

  datatype Target = Target(subscription: int, platform: int, accountId: Option<int>, start: Option<int>)

  function RecordRank(r: Record): Rank { Rank(r.eventTime, r.id, r.revision) }

  function BucketNumber(s: BucketSide): int {
    match s case Long => 0 case Short => 1 case NoSide => 2
  }

  function KeyRank(k: Key): Rank { Rank(k.symbol, BucketNumber(k.bucket), 0) }

  /** Positive quantities and leverages and no negative price, where they are known. A price
      of zero is what the provider lets through. */
  ghost predicate Sound(r: Record) {
    && (r.quantity.Some? ==> r.quantity.value > 0.0)
    && (r.price.Some? ==> r.price.value >= 0.0)
    && (r.leverage.Some? ==> r.leverage.value > 0.0)
  }

  /** A directional fill with its amounts known, as the Binance provider emits them. */
  ghost predicate Fill(r: Record) {
    && r.op in {Increase, Decrease}
    && r.bucket in {Long, Short}
    && r.quantity.Some? && r.quantity.value > 0.0
    && r.price.Some? && r.price.value >= 0.0
    && (r.leverage.Some? ==> r.leverage.value > 0.0)
  }
}
