/**
 * NFT position bookkeeping (src/position-manager.ts): positions are created on
 * their first IncreaseLiquidity, grow and shrink with liquidity events, change
 * owner on Transfer and accumulate collected fees. Pools are found from a
 * token pair through the PoolLookup rows written at pool creation.
 */
module PositionManager {
  import opened Helpers
  import opened Schema
  import opened EntityStore
  import ClFactory
  import MapSum

  datatype LiquidityEvent = LiquidityEvent(meta: EventMeta, tokenId: nat, liquidity: nat, amount0: nat, amount1: nat)

  datatype TransferEvent = TransferEvent(meta: EventMeta, from: Address, to: Address, tokenId: nat)

  datatype CollectEvent = CollectEvent(meta: EventMeta, tokenId: nat, recipient: Address, amount0: nat, amount1: nat)

  /** The fields of `positions(tokenId)` the handler reads; `None` when the call reverts. */
  datatype PositionData = PositionData(token0: Address, token1: Address, tickSpacing: int, tickLower: int, tickUpper: int)

  /**
   * The lookups of `findPoolId`: `t0-t1-spacing`, then `t1-t0-spacing`, on lower-cased
   * tokens, where `spacing` is the text the caller formatted.
   */
  function LookupPool(lookups: map<LookupKey, PoolLookup>, token0: Address, token1: Address, spacing: string): (r: Option<Address>)
    ensures var t0, t1 := ToLower(token0), ToLower(token1);
            && (r.Some? <==> LookupKey(t0, t1, spacing) in lookups || LookupKey(t1, t0, spacing) in lookups)
            && (LookupKey(t0, t1, spacing) in lookups ==> r == Some(lookups[LookupKey(t0, t1, spacing)].pool))
            && (LookupKey(t0, t1, spacing) !in lookups && LookupKey(t1, t0, spacing) in lookups ==>
                  r == Some(lookups[LookupKey(t1, t0, spacing)].pool))
  {
    var t0, t1 := ToLower(token0), ToLower(token1);
    if LookupKey(t0, t1, spacing) in lookups then Some(lookups[LookupKey(t0, t1, spacing)].pool)
    else if LookupKey(t1, t0, spacing) in lookups then Some(lookups[LookupKey(t1, t0, spacing)].pool)
    else None
  }

  /**
   * `findPoolId` as written: its `tickSpacing` parameter is an `f64`, so the integral
   * spacing is formatted with a trailing ".0".
   */
  function FindPoolIdAsWritten(lookups: map<LookupKey, PoolLookup>, token0: Address, token1: Address, tickSpacing: int): (r: Option<Address>)
    ensures r == LookupPool(lookups, token0, token1, IntegralF64Text(tickSpacing))
  {
    LookupPool(lookups, token0, token1, IntegralF64Text(tickSpacing))
  }

  /** `findPoolId` formatting the spacing as the factory does, as an `i32`. */
  function FindPoolId(lookups: map<LookupKey, PoolLookup>, token0: Address, token1: Address, tickSpacing: int): (r: Option<Address>)
    ensures r == LookupPool(lookups, token0, token1, IntText(tickSpacing))
  {
    LookupPool(lookups, token0, token1, IntText(tickSpacing))
  }

  /** Every stored key carries an integer spacing text, as `handlePoolCreated` writes them. */
  predicate SpacingTextsIntegral(lookups: map<LookupKey, PoolLookup>)
  {
    forall k :: k in lookups ==> '.' !in k.tickSpacing
  }

  /** The as-written lookup misses every key whose spacing text has no point. */
  lemma AsWrittenLookupMisses(lookups: map<LookupKey, PoolLookup>, token0: Address, token1: Address, tickSpacing: int)
    requires SpacingTextsIntegral(lookups)
    ensures FindPoolIdAsWritten(lookups, token0, token1, tickSpacing).None?
  {
    var spacing := IntegralF64Text(tickSpacing);
    assert LookupKey(ToLower(token0), ToLower(token1), spacing) !in lookups;
    assert LookupKey(ToLower(token1), ToLower(token0), spacing) !in lookups;
  }

  /**
   * PoolCreated keeps every stored spacing text integral, so starting from no lookups
   * the as-written `findPoolId` never finds a pool, whatever pools are created.
   */
  lemma AsWrittenNeverResolves(lookups: map<LookupKey, PoolLookup>, ev: ClFactory.PoolCreatedEvent, a: Address, b: Address, tickSpacing: int)
    requires SpacingTextsIntegral(lookups)
    ensures var after := lookups[ClFactory.LookupKeyOf(ev) := PoolLookup(ev.pool, ev.token0, ev.token1, ev.tickSpacing)];
            SpacingTextsIntegral(after) && FindPoolIdAsWritten(after, a, b, tickSpacing).None?
  {
    var after := lookups[ClFactory.LookupKeyOf(ev) := PoolLookup(ev.pool, ev.token0, ev.token1, ev.tickSpacing)];
    assert SpacingTextsIntegral(after);
    AsWrittenLookupMisses(after, a, b, tickSpacing);
  }

  /**
   * After PoolCreated the pool resolves from its token pair in either order and in
   * any letter case, provided no other pool was registered under the reversed pair,
   * once the spacing is formatted as the factory formats it.
   */
  lemma CreatedPoolResolves(lookups: map<LookupKey, PoolLookup>, ev: ClFactory.PoolCreatedEvent, a: Address, b: Address)
    requires ToLower(a) == ev.token0 && ToLower(b) == ev.token1
    requires LookupKey(ev.token1, ev.token0, IntText(ev.tickSpacing)) in lookups ==>
               lookups[LookupKey(ev.token1, ev.token0, IntText(ev.tickSpacing))].pool == ev.pool
    ensures var after := lookups[ClFactory.LookupKeyOf(ev) := PoolLookup(ev.pool, ev.token0, ev.token1, ev.tickSpacing)];
            FindPoolId(after, a, b, ev.tickSpacing) == Some(ev.pool)
            && FindPoolId(after, b, a, ev.tickSpacing) == Some(ev.pool)
  {
  }

  /** A new position: zero liquidity and amounts, not staked, created at this event. */
  function NewPosition(tokenId: nat, owner: Address, pool: Address, data: PositionData, meta: EventMeta): (p: Position)
    ensures p.tokenId == tokenId && p.owner == owner && p.pool == pool
    ensures p.tickLower == data.tickLower && p.tickUpper == data.tickUpper
    ensures p.liquidity == 0 && !p.staked && p.stakedGauge == None
    ensures p.amount0 == 0.0 && p.amount1 == 0.0
    ensures p.depositedToken0 == 0.0 && p.depositedToken1 == 0.0
    ensures p.withdrawnToken0 == 0.0 && p.withdrawnToken1 == 0.0
    ensures p.collectedToken0 == 0.0 && p.collectedToken1 == 0.0
    ensures p.createdAtTimestamp == meta.timestamp && p.createdAtBlockNumber == meta.blockNumber
  {
    Position(tokenId, owner, pool, data.tickLower, data.tickUpper, 0,
             0.0, 0.0, 0.0, 0.0, 0.0, 0.0, 0.0, 0.0, false, None,
             meta.timestamp, meta.blockNumber)
  }

  /** The position after IncreaseLiquidity: liquidity and deposits grow by the event amounts. */
  function IncreasedPosition(p: Position, liquidity: nat, amount0: nat, amount1: nat): (q: Position)
    ensures q.liquidity == p.liquidity + liquidity
    ensures q.depositedToken0 == p.depositedToken0 + Amount18(amount0) >= p.depositedToken0
    ensures q.depositedToken1 == p.depositedToken1 + Amount18(amount1) >= p.depositedToken1
    ensures q.(liquidity := p.liquidity, depositedToken0 := p.depositedToken0, depositedToken1 := p.depositedToken1) == p
  {
    p.(liquidity := p.liquidity + liquidity,
       depositedToken0 := p.depositedToken0 + Amount18(amount0),
       depositedToken1 := p.depositedToken1 + Amount18(amount1))
  }

  /** The position after DecreaseLiquidity: liquidity shrinks, withdrawals grow. */
  function DecreasedPosition(p: Position, liquidity: nat, amount0: nat, amount1: nat): (q: Position)
    ensures q.liquidity == p.liquidity - liquidity
    ensures q.withdrawnToken0 == p.withdrawnToken0 + Amount18(amount0) >= p.withdrawnToken0
    ensures q.withdrawnToken1 == p.withdrawnToken1 + Amount18(amount1) >= p.withdrawnToken1
    ensures q.(liquidity := p.liquidity, withdrawnToken0 := p.withdrawnToken0, withdrawnToken1 := p.withdrawnToken1) == p
  {
    p.(liquidity := p.liquidity - liquidity,
       withdrawnToken0 := p.withdrawnToken0 + Amount18(amount0),
       withdrawnToken1 := p.withdrawnToken1 + Amount18(amount1))
  }

  /**
   * Increase then Decrease of the same liquidity restores the liquidity, while
   * deposits and withdrawals only accumulate.
   */
  lemma IncreaseThenDecreaseRestoresLiquidity(p: Position, liquidity: nat, in0: nat, in1: nat, out0: nat, out1: nat)
    ensures var q := DecreasedPosition(IncreasedPosition(p, liquidity, in0, in1), liquidity, out0, out1);
            && q.liquidity == p.liquidity
            && q.depositedToken0 >= p.depositedToken0 && q.depositedToken1 >= p.depositedToken1
            && q.withdrawnToken0 >= p.withdrawnToken0 && q.withdrawnToken1 >= p.withdrawnToken1
            && q.(depositedToken0 := p.depositedToken0, depositedToken1 := p.depositedToken1,
                  withdrawnToken0 := p.withdrawnToken0, withdrawnToken1 := p.withdrawnToken1) == p
  {
  }

  function SnapshotOf(p: Position, meta: EventMeta): (snap: PositionSnapshot)
    ensures snap.position == p.tokenId && snap.liquidity == p.liquidity
    ensures snap.depositedToken0 == p.depositedToken0 && snap.depositedToken1 == p.depositedToken1
    ensures snap.timestamp == meta.timestamp && snap.blockNumber == meta.blockNumber
  {
    PositionSnapshot(p.tokenId, p.liquidity, p.depositedToken0, p.depositedToken1, meta.timestamp, meta.blockNumber)
  }

  /** `max(0, x)` as the source writes it: subtract, then reset a negative result to zero. */
  function ClampAtZero(x: real): (r: real)
    ensures r >= 0.0 && r >= x
    ensures r == x || r == 0.0
  {
    if x < 0.0 then 0.0 else x
  }

  /**
   * `updatePositionAmounts`: with the pool present, each amount becomes the
   * deposited minus withdrawn total, floored at zero; with the pool missing the
   * position is returned as it was.
   */
  function UpdatePositionAmounts(pools: map<Address, Pool>, p: Position): (q: Position)
    ensures p.pool !in pools ==> q == p
    ensures p.pool in pools ==>
      && q.amount0 >= 0.0 && q.amount0 >= p.depositedToken0 - p.withdrawnToken0
      && (q.amount0 == 0.0 || q.amount0 == p.depositedToken0 - p.withdrawnToken0)
      && q.amount1 >= 0.0 && q.amount1 >= p.depositedToken1 - p.withdrawnToken1
      && (q.amount1 == 0.0 || q.amount1 == p.depositedToken1 - p.withdrawnToken1)
    ensures q.(amount0 := p.amount0, amount1 := p.amount1) == p
  {
    if p.pool !in pools then p
    else p.(amount0 := ClampAtZero(p.depositedToken0 - p.withdrawnToken0),
            amount1 := ClampAtZero(p.depositedToken1 - p.withdrawnToken1))
  }

  /** Recomputing the amounts a second time changes nothing. */
  lemma UpdatePositionAmountsIdempotent(pools: map<Address, Pool>, p: Position)
    ensures UpdatePositionAmounts(pools, UpdatePositionAmounts(pools, p)) == UpdatePositionAmounts(pools, p)
  {
  }

  /**
   * `handleIncreaseLiquidity`. For an unknown token id the position is created
   * only when `positions` and `ownerOf` succeed and the pool resolves; then the
   * owner's `totalPositions` rises by one. Either way the position's liquidity
   * and deposits grow and a snapshot is written.
   */
  method HandleIncreaseLiquidity(s: Store, ev: LiquidityEvent, data: Option<PositionData>, owner: Option<Address>)
    requires s.Valid()
    modifies s`positions, s`users, s`snapshots
    ensures s.Valid()
    ensures ev.tokenId in old(s.positions) ==>
      var q := IncreasedPosition(old(s.positions)[ev.tokenId], ev.liquidity, ev.amount0, ev.amount1);
      && s.users == old(s.users)
      && s.positions == old(s.positions)[ev.tokenId := q]
      && s.snapshots == old(s.snapshots)[SnapshotKey(ev.tokenId, ev.meta.timestamp) := SnapshotOf(q, ev.meta)]
    ensures ev.tokenId !in old(s.positions) && (data.None? || owner.None? ||
              FindPoolId(old(s.lookups), data.value.token0, data.value.token1, data.value.tickSpacing).None?) ==>
      unchanged(s)
    ensures ev.tokenId !in old(s.positions) && data.Some? && owner.Some? &&
            FindPoolId(old(s.lookups), data.value.token0, data.value.token1, data.value.tickSpacing).Some? ==>
      var pool := FindPoolId(old(s.lookups), data.value.token0, data.value.token1, data.value.tickSpacing).value;
      var user := UserOrNew(old(s.users), owner.value);
      var q := IncreasedPosition(NewPosition(ev.tokenId, owner.value, pool, data.value, ev.meta), ev.liquidity, ev.amount0, ev.amount1);
      && s.users == old(s.users)[owner.value := user.(totalPositions := user.totalPositions + 1)]
      && s.positions == old(s.positions)[ev.tokenId := q]
      && s.snapshots == old(s.snapshots)[SnapshotKey(ev.tokenId, ev.meta.timestamp) := SnapshotOf(q, ev.meta)]
  {
    var position: Position;
    if ev.tokenId in s.positions {
      position := s.positions[ev.tokenId];
    } else {
      if data.None? {
        return;
      }
      if owner.None? {
        return;
      }
      var poolId := FindPoolId(s.lookups, data.value.token0, data.value.token1, data.value.tickSpacing);
      if poolId.None? {
        return;
      }
      var user := s.GetOrCreateUser(owner.value);
      s.users := s.users[owner.value := user.(totalPositions := user.totalPositions + 1)];
      position := NewPosition(ev.tokenId, owner.value, poolId.value, data.value, ev.meta);
    }
    position := IncreasedPosition(position, ev.liquidity, ev.amount0, ev.amount1);
    s.positions := s.positions[ev.tokenId := position];
    s.snapshots := s.snapshots[SnapshotKey(ev.tokenId, ev.meta.timestamp) := SnapshotOf(position, ev.meta)];
  }

  /** `handleDecreaseLiquidity`: a no-op for an unknown position. */
  method HandleDecreaseLiquidity(s: Store, ev: LiquidityEvent)
    requires s.Valid()
    modifies s`positions
    ensures s.Valid()
    ensures ev.tokenId !in old(s.positions) ==> unchanged(s)
    ensures ev.tokenId in old(s.positions) ==>
      s.positions == old(s.positions)[ev.tokenId := DecreasedPosition(old(s.positions)[ev.tokenId], ev.liquidity, ev.amount0, ev.amount1)]
  {
    if ev.tokenId !in s.positions {
      return;
    }
    s.positions := s.positions[ev.tokenId := DecreasedPosition(s.positions[ev.tokenId], ev.liquidity, ev.amount0, ev.amount1)];
  }

  /** Transfers from or to the zero address are mints and burns, which the handler skips. */
  predicate IsMintOrBurn(from: Address, to: Address)
  {
    from == ZERO_ADDRESS || to == ZERO_ADDRESS
  }

  /**
   * `handleTransfer`: skips mints, burns and unknown positions; otherwise moves
   * one position from the recorded owner to the recipient and re-points the
   * position. The total of `totalPositions` over all users is unchanged.
   */
  method HandleTransfer(s: Store, ev: TransferEvent)
    requires s.Valid()
    modifies s`positions, s`users
    ensures s.Valid()
    ensures IsMintOrBurn(ev.from, ev.to) || ev.tokenId !in old(s.positions) ==> unchanged(s)
    ensures !IsMintOrBurn(ev.from, ev.to) && ev.tokenId in old(s.positions) ==>
      var p := old(s.positions)[ev.tokenId];
      && s.users == MoveOne(old(s.users), PositionsHeld, p.owner, ev.to)
      && s.positions == old(s.positions)[ev.tokenId := p.(owner := ev.to)]
    ensures MapSum.SumValues(Counts(s.users, PositionsHeld)) == MapSum.SumValues(Counts(old(s.users), PositionsHeld))
  {
    if IsMintOrBurn(ev.from, ev.to) || ev.tokenId !in s.positions {
      return;
    }
    var position := s.positions[ev.tokenId];
    s.MoveCount(PositionsHeld, position.owner, ev.to);
    PositionOwnersAfterPut(s.positions, s.users, ev.tokenId, position.(owner := ev.to));
    s.positions := s.positions[ev.tokenId := position.(owner := ev.to)];
  }

  function CollectRecordOf(ev: CollectEvent): (r: CollectRecord)
    ensures r.position == ev.tokenId && r.recipient == ev.recipient && r.transaction == ev.meta.txHash
    ensures r.amount0 == Amount18(ev.amount0) && r.amount1 == Amount18(ev.amount1)
  {
    CollectRecord(ev.tokenId, ev.recipient, Amount18(ev.amount0), Amount18(ev.amount1),
                  ev.meta.timestamp, ev.meta.txHash)
  }

  /** The position after Collect: collected totals grow by the scaled amounts. */
  function CollectedPosition(p: Position, amount0: nat, amount1: nat): (q: Position)
    ensures q.collectedToken0 == p.collectedToken0 + Amount18(amount0) >= p.collectedToken0
    ensures q.collectedToken1 == p.collectedToken1 + Amount18(amount1) >= p.collectedToken1
    ensures q.(collectedToken0 := p.collectedToken0, collectedToken1 := p.collectedToken1) == p
  {
    p.(collectedToken0 := p.collectedToken0 + Amount18(amount0),
       collectedToken1 := p.collectedToken1 + Amount18(amount1))
  }

  /** `handleCollect`: a no-op for an unknown position; otherwise accumulates and writes a Collect record. */
  method HandleCollect(s: Store, ev: CollectEvent)
    requires s.Valid()
    modifies s`positions, s`collects
    ensures s.Valid()
    ensures ev.tokenId !in old(s.positions) ==> unchanged(s)
    ensures ev.tokenId in old(s.positions) ==>
      && s.positions == old(s.positions)[ev.tokenId := CollectedPosition(old(s.positions)[ev.tokenId], ev.amount0, ev.amount1)]
      && s.collects == old(s.collects)[KeyOf(ev.meta) := CollectRecordOf(ev)]
  {
    if ev.tokenId !in s.positions {
      return;
    }
    s.positions := s.positions[ev.tokenId := CollectedPosition(s.positions[ev.tokenId], ev.amount0, ev.amount1)];
    s.collects := s.collects[KeyOf(ev.meta) := CollectRecordOf(ev)];
  }
}
