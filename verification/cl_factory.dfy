/**
 * Pool creation (src/cl-factory.ts): counts the pool on the protocol, loads or
 * creates both tokens, writes a fresh Pool and the PoolLookup row that lets
 * positions find the pool from their token pair.
 */
module ClFactory {
  import opened Helpers
  import opened Schema
  import opened EntityStore

  datatype PoolCreatedEvent = PoolCreatedEvent(
    meta: EventMeta,
    token0: Address,
    token1: Address,
    tickSpacing: int,
    pool: Address)

  /** Results of the ERC20 `try_symbol`, `try_name`, `try_decimals`, `try_totalSupply` calls; None = reverted. */
  datatype Erc20Reads = Erc20Reads(
    symbol: Option<string>,
    name: Option<string>,
    decimals: Option<int>,
    totalSupply: Option<int>)

  /** The protocol as first created by a pool creation: all counters and governance settings zero. */
  function NewProtocol(): (p: Protocol)
    ensures p.totalPools == 0 && p.totalSwaps == 0 && p.epochCount == 0 && p.activePeriod == 0
    ensures p.totalVolumeUSD == 0.0 && p.totalTVLUSD == 0.0
    ensures p.proposalThreshold == Some(0) && p.votingDelay == Some(0) && p.votingPeriod == Some(0)
  {
    Protocol(0.0, 0.0, 0, 0, 0, 0, Some(0), Some(0), Some(0))
  }

  /** The protocol after one PoolCreated: exactly one more pool, nothing else touched. */
  function ProtocolAfterPoolCreated(protocol: Option<Protocol>): (p: Protocol)
    ensures protocol.None? ==> p == NewProtocol().(totalPools := 1)
    ensures protocol.Some? ==> p.totalPools == protocol.value.totalPools + 1
    ensures protocol.Some? ==> p.(totalPools := 0) == protocol.value.(totalPools := 0)
  {
    var base := if protocol.Some? then protocol.value else NewProtocol();
    base.(totalPools := base.totalPools + 1)
  }

  /** The stored token, or a new one filled from the ERC20 reads with the documented defaults. */
  function TokenOrNew(tokens: map<Address, Token>, address: Address, erc20: Erc20Reads): (t: Token)
    ensures address in tokens ==> t == tokens[address]
    ensures address !in tokens ==>
      && t.symbol == (if erc20.symbol.Some? then erc20.symbol.value else "UNKNOWN")
      && t.name == (if erc20.name.Some? then erc20.name.value else "Unknown Token")
      && t.decimals == (if erc20.decimals.Some? then erc20.decimals.value else 18)
      && t.totalSupply == (if erc20.totalSupply.Some? then erc20.totalSupply.value else 0)
      && t.txCount == 0 && t.tradeVolume == 0.0 && t.priceUSD == 0.0 && t.derivedETH == 0.0
      && t.tradeVolumeUSD == 0.0 && t.untrackedVolumeUSD == 0.0 && t.totalVolumeUSD == 0.0
      && t.totalLiquidity == 0.0
  {
    if address in tokens then tokens[address]
    else
      Token(
        if erc20.symbol.Some? then erc20.symbol.value else "UNKNOWN",
        if erc20.name.Some? then erc20.name.value else "Unknown Token",
        if erc20.decimals.Some? then erc20.decimals.value else 18,
        if erc20.totalSupply.Some? then erc20.totalSupply.value else 0,
        0.0, 0.0, 0.0, 0.0, 0, 0.0, 0.0, 0.0)
  }

  /** A pool with no price, liquidity, TVL, volume, fees, providers or rewards yet. */
  predicate PoolAtRest(p: Pool)
  {
    && p.sqrtPriceX96 == 0 && p.tick == 0 && p.liquidity == 0
    && p.totalValueLockedToken0 == 0.0 && p.totalValueLockedToken1 == 0.0 && p.totalValueLockedUSD == 0.0
    && p.volumeToken0 == 0.0 && p.volumeToken1 == 0.0 && p.volumeUSD == 0.0
    && p.feesUSD == 0.0 && p.feesToken0 == 0.0 && p.feesToken1 == 0.0 && p.txCount == 0
    && p.token0Price == 0.0 && p.token1Price == 0.0 && p.untrackedVolumeUSD == 0.0
    && p.liquidityProviderCount == 0 && p.totalRewards == 0.0 && p.gaugeAddress == None
  }

  /** The Pool written by `handlePoolCreated`: tokens in event order, the event's spacing, all else zero. */
  function NewPool(ev: PoolCreatedEvent): (p: Pool)
    ensures p.token0 == ev.token0 && p.token1 == ev.token1 && p.tickSpacing == ev.tickSpacing
    ensures p.createdAtTimestamp == ev.meta.timestamp && p.createdAtBlockNumber == ev.meta.blockNumber
    ensures p.factory == ev.meta.address
    ensures PoolAtRest(p)
  {
    Pool(ev.token0, ev.token1, ev.tickSpacing, 0, 0, 0,
         0.0, 0.0, 0.0, 0.0, 0.0, 0.0, 0.0, 0.0, 0.0, 0, 0.0, 0.0, 0.0,
         ev.meta.timestamp, ev.meta.blockNumber, ev.meta.address, 0, 0.0, None)
  }

  /** The PoolLookup id: both tokens and the `i32` spacing's text. */
  function LookupKeyOf(ev: PoolCreatedEvent): LookupKey
  {
    LookupKey(ev.token0, ev.token1, IntText(ev.tickSpacing))
  }

  /** `handlePoolCreated`. The CLPool template registration is not modelled. */
  method HandlePoolCreated(s: Store, ev: PoolCreatedEvent, reads0: Erc20Reads, reads1: Erc20Reads)
    requires s.Valid()
    modifies s`protocol, s`tokens, s`pools, s`lookups
    ensures s.Valid()
    ensures s.protocol == Some(ProtocolAfterPoolCreated(old(s.protocol)))
    ensures var t0 := TokenOrNew(old(s.tokens), ev.token0, reads0);
            var afterT0 := old(s.tokens)[ev.token0 := t0];
            s.tokens == afterT0[ev.token1 := TokenOrNew(afterT0, ev.token1, reads1)]
    ensures s.pools == old(s.pools)[ev.pool := NewPool(ev)]
    ensures s.lookups == old(s.lookups)[LookupKeyOf(ev) := PoolLookup(ev.pool, ev.token0, ev.token1, ev.tickSpacing)]
  {
    var protocol := ProtocolAfterPoolCreated(s.protocol);
    s.protocol := Some(protocol);

    var token0 := TokenOrNew(s.tokens, ev.token0, reads0);
    s.tokens := s.tokens[ev.token0 := token0];
    var token1 := TokenOrNew(s.tokens, ev.token1, reads1);
    s.tokens := s.tokens[ev.token1 := token1];

    s.pools := s.pools[ev.pool := NewPool(ev)];
    s.lookups := s.lookups[LookupKeyOf(ev) := PoolLookup(ev.pool, ev.token0, ev.token1, ev.tickSpacing)];
  }

  /** Tokens already indexed are never overwritten by a later pool creation. */
  lemma ExistingTokensUnchanged(tokens: map<Address, Token>, ev: PoolCreatedEvent, reads0: Erc20Reads, reads1: Erc20Reads, a: Address)
    requires a in tokens
    ensures var t0 := TokenOrNew(tokens, ev.token0, reads0);
            var afterT0 := tokens[ev.token0 := t0];
            afterT0[ev.token1 := TokenOrNew(afterT0, ev.token1, reads1)][a] == tokens[a]
  {
  }
}
