/** Integer domain types, wire enums and the normalized events of the engine.
    Machine integers are subset types, so every value that is stored has been
    shown to fit its width; the source's checked operations return an Option. */
module Domain {

  type u8 = x: int | 0 <= x <= 0xFF
  type u16 = x: int | 0 <= x <= 0xFFFF
  type u32 = x: int | 0 <= x <= 0xFFFF_FFFF
  type u64 = x: int | 0 <= x <= 0xFFFF_FFFF_FFFF_FFFF
  type u128 = x: int | 0 <= x <= 0xFFFF_FFFF_FFFF_FFFF_FFFF_FFFF_FFFF_FFFF
  type i64 = x: int | -0x8000_0000_0000_0000 <= x <= 0x7FFF_FFFF_FFFF_FFFF

  const U32_MAX: int := 0xFFFF_FFFF
  const U64_MAX: int := 0xFFFF_FFFF_FFFF_FFFF
  const U128_MAX: int := 0xFFFF_FFFF_FFFF_FFFF_FFFF_FFFF_FFFF_FFFF
  const I64_MIN: int := -0x8000_0000_0000_0000
  const I64_MAX: int := 0x7FFF_FFFF_FFFF_FFFF

  datatype Option<+T> = None | Some(value: T)

  // ---- checked arithmetic -------------------------------------------------

  function ToU64(x: int): Option<u64> {
    if 0 <= x <= U64_MAX then Some(x) else None
  }

  function ToU128(x: int): Option<u128> {
    if 0 <= x <= U128_MAX then Some(x) else None
  }

  function ToI64(x: int): Option<i64> {
    if I64_MIN <= x <= I64_MAX then Some(x) else None
  }

  function Abs(x: int): nat {
    if x < 0 then -x else x
  }

  function Min(a: int, b: int): int {
    if a <= b then a else b
  }

  /** A counter's successor, or None when it is exhausted. */
  function Successor(n: u64): Option<u64> {
    ToU64(n + 1)
  }

  /** Quantity times the absolute price. */
  function CheckedNotional(lots: u64, price: i64): Option<u128> {
    ToU128(lots * Abs(price))
  }

  /** Midpoint rounded toward negative infinity. */
  function Midpoint(bid: i64, ask: i64): Option<i64> {
    if ToI64(bid + ask).Some? then Some((bid + ask) / 2) else None
  }

  // ---- wire enums ---------------------------------------------------------

  datatype Side = Buy | Sell {
    function Opposite(): Side {
      if Buy? then Sell else Buy
    }
  }

  datatype OrderType = LimitOrder | MarketOrder

  datatype OrderState = Working | PartlyFilled | FullyFilled | CancelledState

  datatype RequestKind = New | Cancel | Replace

  datatype ReportKind = Accepted | Rejected | PartiallyFilled | Filled | Cancelled | Replaced

  datatype FeedState = Unsynchronized | ApplyingSnapshot | Live | Gap

  datatype RejectReason =
    | MalformedRequest
    | UnknownInstrument
    | UnknownAccount
    | UnknownOrder
    | InvalidSide
    | InvalidOrderType
    | InvalidPrice
    | InvalidQuantity
    | PriceNotAligned
    | QuantityNotAligned
    | DuplicateRequestConflict
    | SequenceTooOld
    | SequenceOutOfOrder
    | DuplicateClientOrderId
    | AccountDisabled
    | GlobalKillActive
    | MarketDataUnsynchronized
    | MarketDataStale
    | MaxOrderQuantity
    | MaxOrderNotional
    | PriceCollar
    | MaxPosition
    | MaxGrossExposure
    | CapacityExhausted
    | ArithmeticOverflow
    | OrderAlreadyTerminal
    | InvalidReplaceQuantity
    | NoReferencePrice

  // ---- inputs -------------------------------------------------------------

  datatype MarketKind =
    | SnapshotBegin(snapshotSeq: u64)
    | SnapshotLevel(side: Side, price: i64, quantity: u64)
    | SnapshotEnd(endSeq: u64, levelCount: u32)
    | LevelSet(side: Side, price: i64, quantity: u64)
    | MarketTrade(side: Side, price: i64, quantity: u64)
    | Heartbeat
    | FeedReset(newEpoch: u64)

  datatype MarketEvent = MarketEvent(instrument: u32, sourceSeq: u64, sourceTimeNs: u64, kind: MarketKind)

  datatype Request = Request(
    kind: RequestKind,
    account: u32,
    instrument: u32,
    requestId: u64,
    clientSeq: u64,
    clientOrderId: u64,
    target: u64,
    side: Side,
    orderType: OrderType,
    price: i64,
    quantity: u64)

  datatype Limits = Limits(
    maxOrderQuantity: u64,
    maxOrderNotional: u128,
    maxPositionLots: u64,
    maxGrossExposure: u128,
    priceCollarTicks: i64)

  datatype Command =
    | SetGlobalKill(engaged: bool)
    | SetAccountEnabled(account: u32, enabled: bool)
    | SetAccountLimits(account: u32, limits: Limits)

  datatype Event =
    | MarketInput(market: MarketEvent)
    | OrderInput(request: Request)
    | ControlInput(command: Command)

  datatype Input = Input(ingressSeq: u64, recvTimeNs: u64, event: Event)

  // ---- outputs ------------------------------------------------------------

  datatype Report = Report(
    outputSeq: u64,
    engineSeq: u64,
    timeNs: u64,
    account: u32,
    instrument: u32,
    requestId: u64,
    clientOrderId: u64,
    orderId: u64,
    kind: ReportKind,
    state: OrderState,
    side: Side,
    orderType: OrderType,
    price: i64,
    total: u64,
    cumulative: u64,
    remaining: u64,
    lastQuantity: u64,
    lastPrice: i64,
    reject: Option<RejectReason>)

  datatype Trade = Trade(
    outputSeq: u64,
    engineSeq: u64,
    timeNs: u64,
    tradeId: u64,
    instrument: u32,
    makerOrderId: u64,
    takerOrderId: u64,
    makerAccount: u32,
    takerAccount: u32,
    aggressor: Side,
    price: i64,
    quantity: u64)

  datatype StateChange =
    | KillEngaged
    | KillReleased
    | EnabledChanged(account: u32, enabled: bool)
    | LimitsChanged(account: u32)
    | FeedChanged(instrument: u32, state: FeedState)

  datatype Output =
    | TradeOut(trade: Trade)
    | ReportOut(report: Report)
    | StateOut(outputSeq: u64, engineSeq: u64, timeNs: u64, change: StateChange)
  {
    function Seq(): u64 {
      match this
      case TradeOut(t) => t.outputSeq
      case ReportOut(r) => r.outputSeq
      case StateOut(n, _, _, _) => n
    }
  }

  /** A notional never overflows 128 bits, so the source's checked product
      always succeeds. */
  lemma NotionalFits(lots: u64, price: i64)
    ensures CheckedNotional(lots, price) == Some(lots * Abs(price))
  {
    var a := Abs(price);
    assert a <= 0x8000_0000_0000_0000;
    calc {
      lots * a;
    <= { MulMonotone(lots, U64_MAX, a); }
      U64_MAX * a;
    <= 0xFFFF_FFFF_FFFF_FFFF * 0x8000_0000_0000_0000;
    }
  }

  lemma MulMonotone(a: nat, b: nat, c: nat)
    requires a <= b
    ensures a * c <= b * c
  {
  }
}
