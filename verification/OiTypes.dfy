/** The value objects the collector passes around. */
module OiTypes {
  import opened Base

  datatype Exchange = Binance | Bybit | Okx | BingX | KuCoin | Mexc | Bitget | Hyperliquid | Aster

  /** In the fixed order of preference. */
  const ALL_EXCHANGES: seq<Exchange> := [Binance, Bybit, Okx, BingX, KuCoin, Mexc, Bitget, Hyperliquid, Aster]

  /** Position in the fixed order of preference. */
  function Rank(e: Exchange): (r: nat)
    ensures r < |ALL_EXCHANGES| && ALL_EXCHANGES[r] == e
  {
    match e
    case Binance => 0
    case Bybit => 1
    case Okx => 2
    case BingX => 3
    case KuCoin => 4
    case Mexc => 5
    case Bitget => 6
    case Hyperliquid => 7
    case Aster => 8
  }

  datatype InstrumentId = InstrumentId(exchange: Exchange, symbol: string)

  datatype UnitKind = Coins | Contracts | Usd

  /** A decimal number, counted in units of 10^-28, the finest scale there is; it is only compared and passed on. */
  type Decimal = int

  /** A point in time or a span of it, in nanoseconds. */
  type Nanos = int

  /** One enriched observation. */
  datatype Sample = Sample(
    instrument: InstrumentId, bucket: Nanos, recv: Nanos,
    native: Decimal, unit: UnitKind,
    coins: Option<Decimal>, usd: Option<Decimal>, price: Option<Decimal>)

  datatype Ohlc<T> = Ohlc(open: T, high: T, low: T, close: T)

  /** A one-minute bar. */
  datatype Snapshot = Snapshot(
    instrument: InstrumentId, bucket: Nanos, firstRecv: Nanos, lastRecv: Nanos, samples: nat,
    unit: UnitKind, native: Ohlc<Decimal>,
    coins: Ohlc<Option<Decimal>>, usd: Ohlc<Option<Decimal>>, priceClose: Option<Decimal>)

  /** The funding rate of one minute and when it is next paid. */
  datatype FundingBar = FundingBar(
    instrument: InstrumentId, bucket: Nanos, rate: Decimal, nextFunding: Option<Nanos>, intervalHours: Option<nat>)

  /** A funding payment. */
  datatype FundingEvent = FundingEvent(
    instrument: InstrumentId, settlementTs: Nanos, rate: Decimal, markPrice: Option<Decimal>)
}
