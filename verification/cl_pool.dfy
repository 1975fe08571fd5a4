/**
 * Concentrated-liquidity pool events (src/cl-pool.ts): Swap accumulates volume
 * into the pool and its day/hour buckets, Mint and Burn move TVL up and down.
 * Amounts are scaled with 18 decimals for both tokens, as the source does.
 */
module ClPool {
  import opened Helpers
  import opened Schema
  import opened EntityStore

  datatype SwapEvent = SwapEvent(
    meta: EventMeta,
    sender: Address,
    recipient: Address,
    amount0: int,
    amount1: int,
    sqrtPriceX96: nat,
    liquidity: nat,
    tick: int)

  datatype MintEvent = MintEvent(
    meta: EventMeta,
    sender: Address,
    owner: Address,
    tickLower: int,
    tickUpper: int,
    amount: nat,
    amount0: nat,
    amount1: nat)

  datatype BurnEvent = BurnEvent(
    meta: EventMeta,
    owner: Address,
    tickLower: int,
    tickUpper: int,
    amount: nat,
    amount0: nat,
    amount1: nat)

  const SECONDS_PER_DAY: nat := 86400
  const SECONDS_PER_HOUR: nat := 3600

  /** The USD estimate of a Swap: the mean of the two absolute, scaled amounts. */
  function SwapVolumeUSD(amount0: int, amount1: int): (v: real)
    ensures v >= 0.0
    ensures 2.0 * v == Amount18(Abs(amount0)) + Amount18(Abs(amount1))
  {
    (Amount18(Abs(amount0)) + Amount18(Abs(amount1))) / 2.0
  }

  /** The USD estimate of a Mint or Burn: the mean of the two scaled amounts. */
  function LiquidityUSD(amount0: int, amount1: int): (v: real)
    ensures amount0 >= 0 && amount1 >= 0 ==> v >= 0.0
    ensures 2.0 * v == Amount18(amount0) + Amount18(amount1)
  {
    (Amount18(amount0) + Amount18(amount1)) / 2.0
  }

  /** Index of the day containing `ts`: `ts / 86400`, which brackets `ts`. */
  function DayIndex(ts: nat): (d: nat)
    ensures d * SECONDS_PER_DAY <= ts < (d + 1) * SECONDS_PER_DAY
  {
    ts / SECONDS_PER_DAY
  }

  /** Index of the hour containing `ts`: `ts / 3600`, which brackets `ts`. */
  function HourIndex(ts: nat): (h: nat)
    ensures h * SECONDS_PER_HOUR <= ts < (h + 1) * SECONDS_PER_HOUR
  {
    ts / SECONDS_PER_HOUR
  }

  /** `updatePoolDayData`: the stored day bucket of this pool and day, or a zeroed one dated to the day's start. */
  function PoolDayDataFor(dayData: map<BucketKey, PoolDayData>, pool: Address, ts: nat): (d: PoolDayData)
    ensures BucketKey(pool, DayIndex(ts)) in dayData ==> d == dayData[BucketKey(pool, DayIndex(ts))]
    ensures BucketKey(pool, DayIndex(ts)) !in dayData ==>
      && d.pool == pool && d.date == DayIndex(ts) * SECONDS_PER_DAY
      && d.volumeToken0 == 0.0 && d.volumeToken1 == 0.0 && d.volumeUSD == 0.0 && d.txCount == 0
      && d.tvlUSD == 0.0 && d.feesUSD == 0.0
      && d.open == 0.0 && d.high == 0.0 && d.low == 0.0 && d.close == 0.0
  {
    var key := BucketKey(pool, DayIndex(ts));
    if key in dayData then dayData[key]
    else PoolDayData(pool, DayIndex(ts) * SECONDS_PER_DAY, 0.0, 0.0, 0.0, 0.0, 0.0, 0, 0.0, 0.0, 0.0, 0.0)
  }

  /** `updatePoolHourData`: the stored hour bucket, or a zeroed one starting at the hour. */
  function PoolHourDataFor(hourData: map<BucketKey, PoolHourData>, pool: Address, ts: nat): (h: PoolHourData)
    ensures BucketKey(pool, HourIndex(ts)) in hourData ==> h == hourData[BucketKey(pool, HourIndex(ts))]
    ensures BucketKey(pool, HourIndex(ts)) !in hourData ==>
      && h.pool == pool && h.periodStartTimestamp == HourIndex(ts) * SECONDS_PER_HOUR
      && h.volumeToken0 == 0.0 && h.volumeToken1 == 0.0 && h.volumeUSD == 0.0 && h.txCount == 0
      && h.tvlUSD == 0.0 && h.feesUSD == 0.0
  {
    var key := BucketKey(pool, HourIndex(ts));
    if key in hourData then hourData[key]
    else PoolHourData(pool, HourIndex(ts) * SECONDS_PER_HOUR, 0.0, 0.0, 0.0, 0.0, 0.0, 0)
  }

  /** In a store whose buckets match their keys, the bucket an event lands in brackets its time. */
  lemma BucketsBracketEventTime(dayData: map<BucketKey, PoolDayData>, hourData: map<BucketKey, PoolHourData>,
                                pool: Address, ts: nat)
    requires DayBucketsKeyed(dayData) && HourBucketsKeyed(hourData)
    ensures var d := PoolDayDataFor(dayData, pool, ts);
            d.pool == pool && d.date <= ts < d.date + SECONDS_PER_DAY
    ensures var h := PoolHourDataFor(hourData, pool, ts);
            h.pool == pool && h.periodStartTimestamp <= ts < h.periodStartTimestamp + SECONDS_PER_HOUR
  {
    var dk, hk := BucketKey(pool, DayIndex(ts)), BucketKey(pool, HourIndex(ts));
    if dk in dayData {
      assert dayData[dk].date == DayIndex(ts) * SECONDS_PER_DAY;
    }
    if hk in hourData {
      assert hourData[hk].periodStartTimestamp == HourIndex(ts) * SECONDS_PER_HOUR;
    }
  }

  /** The pool after a Swap: price state taken from the event, volumes grown, one more transaction. */
  function SwappedPool(p: Pool, ev: SwapEvent): (q: Pool)
    ensures q.sqrtPriceX96 == ev.sqrtPriceX96 && q.tick == ev.tick && q.liquidity == ev.liquidity
    ensures q.volumeToken0 == p.volumeToken0 + Amount18(Abs(ev.amount0)) >= p.volumeToken0
    ensures q.volumeToken1 == p.volumeToken1 + Amount18(Abs(ev.amount1)) >= p.volumeToken1
    ensures q.volumeUSD == p.volumeUSD + SwapVolumeUSD(ev.amount0, ev.amount1) >= p.volumeUSD
    ensures q.txCount == p.txCount + 1
    ensures q.(sqrtPriceX96 := p.sqrtPriceX96, tick := p.tick, liquidity := p.liquidity,
               volumeToken0 := p.volumeToken0, volumeToken1 := p.volumeToken1,
               volumeUSD := p.volumeUSD, txCount := p.txCount) == p
  {
    p.(sqrtPriceX96 := ev.sqrtPriceX96, tick := ev.tick, liquidity := ev.liquidity,
       volumeToken0 := p.volumeToken0 + Amount18(Abs(ev.amount0)),
       volumeToken1 := p.volumeToken1 + Amount18(Abs(ev.amount1)),
       volumeUSD := p.volumeUSD + SwapVolumeUSD(ev.amount0, ev.amount1),
       txCount := p.txCount + 1)
  }

  /** The day bucket after a Swap: volumes grown, one more transaction, TVL copied from the pool. */
  function SwappedDayData(d: PoolDayData, ev: SwapEvent, poolTVL: real): (d': PoolDayData)
    ensures d'.volumeToken0 == d.volumeToken0 + Amount18(Abs(ev.amount0)) >= d.volumeToken0
    ensures d'.volumeToken1 == d.volumeToken1 + Amount18(Abs(ev.amount1)) >= d.volumeToken1
    ensures d'.volumeUSD == d.volumeUSD + SwapVolumeUSD(ev.amount0, ev.amount1) >= d.volumeUSD
    ensures d'.txCount == d.txCount + 1 && d'.tvlUSD == poolTVL
    ensures d'.(volumeToken0 := d.volumeToken0, volumeToken1 := d.volumeToken1, volumeUSD := d.volumeUSD,
               txCount := d.txCount, tvlUSD := d.tvlUSD) == d
  {
    d.(volumeToken0 := d.volumeToken0 + Amount18(Abs(ev.amount0)),
       volumeToken1 := d.volumeToken1 + Amount18(Abs(ev.amount1)),
       volumeUSD := d.volumeUSD + SwapVolumeUSD(ev.amount0, ev.amount1),
       txCount := d.txCount + 1,
       tvlUSD := poolTVL)
  }

  /** The hour bucket after a Swap, as for the day bucket. */
  function SwappedHourData(h: PoolHourData, ev: SwapEvent, poolTVL: real): (h': PoolHourData)
    ensures h'.volumeToken0 == h.volumeToken0 + Amount18(Abs(ev.amount0)) >= h.volumeToken0
    ensures h'.volumeToken1 == h.volumeToken1 + Amount18(Abs(ev.amount1)) >= h.volumeToken1
    ensures h'.volumeUSD == h.volumeUSD + SwapVolumeUSD(ev.amount0, ev.amount1) >= h.volumeUSD
    ensures h'.txCount == h.txCount + 1 && h'.tvlUSD == poolTVL
    ensures h'.(volumeToken0 := h.volumeToken0, volumeToken1 := h.volumeToken1, volumeUSD := h.volumeUSD,
               txCount := h.txCount, tvlUSD := h.tvlUSD) == h
  {
    h.(volumeToken0 := h.volumeToken0 + Amount18(Abs(ev.amount0)),
       volumeToken1 := h.volumeToken1 + Amount18(Abs(ev.amount1)),
       volumeUSD := h.volumeUSD + SwapVolumeUSD(ev.amount0, ev.amount1),
       txCount := h.txCount + 1,
       tvlUSD := poolTVL)
  }

  /** The protocol after a Swap: volume and swap count grow; TVL, pools and epochs are untouched. */
  function SwappedProtocol(p: Protocol, volumeUSD: real): (q: Protocol)
    ensures q.totalVolumeUSD == p.totalVolumeUSD + volumeUSD && q.totalSwaps == p.totalSwaps + 1
    ensures q.(totalVolumeUSD := p.totalVolumeUSD, totalSwaps := p.totalSwaps) == p
  {
    p.(totalVolumeUSD := p.totalVolumeUSD + volumeUSD, totalSwaps := p.totalSwaps + 1)
  }

  function SwapRecordOf(ev: SwapEvent): (r: SwapRecord)
    ensures r.pool == ev.meta.address && r.transaction == ev.meta.txHash
    ensures r.amount0 == Amount18(Abs(ev.amount0)) && r.amount1 == Amount18(Abs(ev.amount1))
    ensures r.amountUSD == SwapVolumeUSD(ev.amount0, ev.amount1)
  {
    SwapRecord(ev.meta.address, ev.sender, ev.recipient, Amount18(Abs(ev.amount0)), Amount18(Abs(ev.amount1)),
               SwapVolumeUSD(ev.amount0, ev.amount1), ev.sqrtPriceX96, ev.tick,
               ev.meta.timestamp, ev.meta.blockNumber, ev.meta.txHash)
  }

  /** `handleSwap`: a no-op on an unknown pool; otherwise updates pool, buckets, record and protocol totals. */
  method HandleSwap(s: Store, ev: SwapEvent)
    requires s.Valid()
    modifies s`pools, s`swaps, s`dayData, s`hourData, s`protocol
    ensures s.Valid()
    ensures ev.meta.address !in old(s.pools) ==> unchanged(s)
    ensures ev.meta.address in old(s.pools) ==>
      var addr, ts := ev.meta.address, ev.meta.timestamp;
      var q := SwappedPool(old(s.pools)[addr], ev);
      && s.pools == old(s.pools)[addr := q]
      && s.swaps == old(s.swaps)[KeyOf(ev.meta) := SwapRecordOf(ev)]
      && s.dayData == old(s.dayData)[BucketKey(addr, DayIndex(ts)) :=
           SwappedDayData(PoolDayDataFor(old(s.dayData), addr, ts), ev, q.totalValueLockedUSD)]
      && s.hourData == old(s.hourData)[BucketKey(addr, HourIndex(ts)) :=
           SwappedHourData(PoolHourDataFor(old(s.hourData), addr, ts), ev, q.totalValueLockedUSD)]
      && s.protocol == (if old(s.protocol).Some?
                        then Some(SwappedProtocol(old(s.protocol).value, SwapVolumeUSD(ev.amount0, ev.amount1)))
                        else None)
  {
    var addr := ev.meta.address;
    if addr !in s.pools {
      return;
    }
    var pool := SwappedPool(s.pools[addr], ev);
    s.pools := s.pools[addr := pool];

    s.swaps := s.swaps[KeyOf(ev.meta) := SwapRecordOf(ev)];

    var ts := ev.meta.timestamp;
    var day := SwappedDayData(PoolDayDataFor(s.dayData, addr, ts), ev, pool.totalValueLockedUSD);
    DayBucketsAfterPut(s.dayData, BucketKey(addr, DayIndex(ts)), day);
    s.dayData := s.dayData[BucketKey(addr, DayIndex(ts)) := day];

    var hour := SwappedHourData(PoolHourDataFor(s.hourData, addr, ts), ev, pool.totalValueLockedUSD);
    HourBucketsAfterPut(s.hourData, BucketKey(addr, HourIndex(ts)), hour);
    s.hourData := s.hourData[BucketKey(addr, HourIndex(ts)) := hour];

    if s.protocol.Some? {
      s.protocol := Some(SwappedProtocol(s.protocol.value, SwapVolumeUSD(ev.amount0, ev.amount1)));
    }
  }

  /** The pool after a Mint: TVL grows by the scaled amounts; nothing else changes. */
  function MintedPool(p: Pool, amount0: int, amount1: int): (q: Pool)
    ensures q.totalValueLockedToken0 == p.totalValueLockedToken0 + Amount18(amount0)
    ensures q.totalValueLockedToken1 == p.totalValueLockedToken1 + Amount18(amount1)
    ensures q.totalValueLockedUSD == p.totalValueLockedUSD + LiquidityUSD(amount0, amount1)
    ensures q.(totalValueLockedToken0 := p.totalValueLockedToken0, totalValueLockedToken1 := p.totalValueLockedToken1,
               totalValueLockedUSD := p.totalValueLockedUSD) == p
  {
    p.(totalValueLockedToken0 := p.totalValueLockedToken0 + Amount18(amount0),
       totalValueLockedToken1 := p.totalValueLockedToken1 + Amount18(amount1),
       totalValueLockedUSD := p.totalValueLockedUSD + LiquidityUSD(amount0, amount1))
  }

  /** The pool after a Burn: TVL shrinks by the scaled amounts, with no clamping at zero. */
  function BurnedPool(p: Pool, amount0: int, amount1: int): (q: Pool)
    ensures q.totalValueLockedToken0 == p.totalValueLockedToken0 - Amount18(amount0)
    ensures q.totalValueLockedToken1 == p.totalValueLockedToken1 - Amount18(amount1)
    ensures q.totalValueLockedUSD == p.totalValueLockedUSD - LiquidityUSD(amount0, amount1)
    ensures q.(totalValueLockedToken0 := p.totalValueLockedToken0, totalValueLockedToken1 := p.totalValueLockedToken1,
               totalValueLockedUSD := p.totalValueLockedUSD) == p
  {
    p.(totalValueLockedToken0 := p.totalValueLockedToken0 - Amount18(amount0),
       totalValueLockedToken1 := p.totalValueLockedToken1 - Amount18(amount1),
       totalValueLockedUSD := p.totalValueLockedUSD - LiquidityUSD(amount0, amount1))
  }

  /** `protocol.totalTVLUSD` moved by `delta`, everything else kept. */
  function ProtocolTVLMoved(p: Option<Protocol>, delta: real): (q: Option<Protocol>)
    ensures q.Some? <==> p.Some?
    ensures p.Some? ==> q.value.totalTVLUSD == p.value.totalTVLUSD + delta
    ensures p.Some? ==> q.value.(totalTVLUSD := p.value.totalTVLUSD) == p.value
  {
    if p.Some? then Some(p.value.(totalTVLUSD := p.value.totalTVLUSD + delta)) else None
  }

  /** A Mint followed by a Burn of the same amounts restores the pool and the protocol TVL exactly. */
  lemma MintThenBurnRestoresTVL(p: Pool, protocol: Option<Protocol>, amount0: int, amount1: int)
    ensures BurnedPool(MintedPool(p, amount0, amount1), amount0, amount1) == p
    ensures ProtocolTVLMoved(ProtocolTVLMoved(protocol, LiquidityUSD(amount0, amount1)), -LiquidityUSD(amount0, amount1)) == protocol
  {
  }

  function MintRecordOf(ev: MintEvent): (r: MintRecord)
    ensures r.pool == ev.meta.address && r.transaction == ev.meta.txHash && r.amount == ev.amount
    ensures r.amount0 == Amount18(ev.amount0) && r.amount1 == Amount18(ev.amount1)
    ensures r.amountUSD == LiquidityUSD(ev.amount0, ev.amount1)
  {
    MintRecord(ev.meta.address, ev.owner, ev.sender, ev.tickLower, ev.tickUpper, ev.amount,
               Amount18(ev.amount0), Amount18(ev.amount1), LiquidityUSD(ev.amount0, ev.amount1),
               ev.meta.timestamp, ev.meta.txHash)
  }

  function BurnRecordOf(ev: BurnEvent): (r: BurnRecord)
    ensures r.pool == ev.meta.address && r.transaction == ev.meta.txHash && r.amount == ev.amount
    ensures r.amount0 == Amount18(ev.amount0) && r.amount1 == Amount18(ev.amount1)
    ensures r.amountUSD == LiquidityUSD(ev.amount0, ev.amount1)
  {
    BurnRecord(ev.meta.address, ev.owner, ev.tickLower, ev.tickUpper, ev.amount,
               Amount18(ev.amount0), Amount18(ev.amount1), LiquidityUSD(ev.amount0, ev.amount1),
               ev.meta.timestamp, ev.meta.txHash)
  }

  /** `handleMint`: a no-op on an unknown pool; otherwise raises TVL and writes the Mint record. */
  method HandleMint(s: Store, ev: MintEvent)
    requires s.Valid()
    modifies s`pools, s`mints, s`protocol
    ensures s.Valid()
    ensures ev.meta.address !in old(s.pools) ==> unchanged(s)
    ensures ev.meta.address in old(s.pools) ==>
      && s.pools == old(s.pools)[ev.meta.address := MintedPool(old(s.pools)[ev.meta.address], ev.amount0, ev.amount1)]
      && s.mints == old(s.mints)[KeyOf(ev.meta) := MintRecordOf(ev)]
      && s.protocol == ProtocolTVLMoved(old(s.protocol), LiquidityUSD(ev.amount0, ev.amount1))
  {
    var addr := ev.meta.address;
    if addr !in s.pools {
      return;
    }
    s.pools := s.pools[addr := MintedPool(s.pools[addr], ev.amount0, ev.amount1)];
    s.mints := s.mints[KeyOf(ev.meta) := MintRecordOf(ev)];
    s.protocol := ProtocolTVLMoved(s.protocol, LiquidityUSD(ev.amount0, ev.amount1));
  }

  /** `handleBurn`: a no-op on an unknown pool; otherwise lowers TVL and writes the Burn record. */
  method HandleBurn(s: Store, ev: BurnEvent)
    requires s.Valid()
    modifies s`pools, s`burns, s`protocol
    ensures s.Valid()
    ensures ev.meta.address !in old(s.pools) ==> unchanged(s)
    ensures ev.meta.address in old(s.pools) ==>
      && s.pools == old(s.pools)[ev.meta.address := BurnedPool(old(s.pools)[ev.meta.address], ev.amount0, ev.amount1)]
      && s.burns == old(s.burns)[KeyOf(ev.meta) := BurnRecordOf(ev)]
      && s.protocol == ProtocolTVLMoved(old(s.protocol), -LiquidityUSD(ev.amount0, ev.amount1))
  {
    var addr := ev.meta.address;
    if addr !in s.pools {
      return;
    }
    s.pools := s.pools[addr := BurnedPool(s.pools[addr], ev.amount0, ev.amount1)];
    s.burns := s.burns[KeyOf(ev.meta) := BurnRecordOf(ev)];
    s.protocol := ProtocolTVLMoved(s.protocol, -LiquidityUSD(ev.amount0, ev.amount1));
  }
}
