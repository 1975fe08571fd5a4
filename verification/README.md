# Windswap subgraph core, modelled in Dafny

This project models the deterministic core of the Windswap subgraph. The
subgraph replays the events of a concentrated-liquidity AMM and its vote-escrow
incentive layer into an entity store: pools, tokens, NFT positions, gauges,
epochs, veNFTs and governor proposals. The model has three layers.

- **Tick and liquidity math** (`tick_math.dfy`, module `TickMath`) is pure
  integer arithmetic:
  - `getSqrtRatioAtTick` chooses the initial Q128 ratio from bit 0 of |tick|,
    applies up to 19 multiply-and-shift steps for bits 1 to 19, inverts with
    `uint256max / ratio` for positive ticks and ends with `>> 32`;
  - the three `LiquidityAmounts` functions use graph-node's truncating `BigInt`
    division.
- **Shared helpers** (`helpers.dfy`, module `Helpers`) cover decimal scaling,
  `abs`, ASCII lower-casing, stablecoin membership and the tick-spacing
  fee-tier table. The scaling helper appears in four source files; it is
  modelled once.
- **Event handlers** are methods over an entity store. The store is a class
  `EntityStore.Store` with one map field per entity type. `Store.Valid()`
  holds three invariants, which every handler preserves:
  - each day or hour bucket sits under the key its pool and start time were
    derived from;
  - every gauge's `totalStaked` equals its `totalSupply`;
  - every position owner and veNFT owner is a stored `User`.

  Each handler states its whole new state through small pure update functions
  (`SwappedPool`, `StakedGauge`, `TalliedProposal`, …). The properties live on
  those functions and on lemmas about them. One module per source file:
  - `ClFactory`, `ClPool` and `PositionManager`;
  - `Gauges` and `VotingRewards`;
  - `VotingEscrow`, `ProtocolGovernor`, `RewardsDistributor` and `Minter`.

Conventions:
- `BigInt` is `int`. `BigDecimal` is an exact `real`.
- Entity ids are datatype keys rather than concatenated strings. For example,
  `EventKey(txHash, logIndex)` stands for `txHash-logIndex`, and
  `StakeKey.CLStake(user, gauge, tokenId)` for `user-gauge-tokenId`.
- Contract reads that may revert (`try_positions`, `try_ownerOf`, `try_locked`,
  `try_balanceOfNFT`, the ERC20 `try_*` reads) are `Option` parameters of the
  handler. `None` means the call reverted.
- "Load, and return if missing" is an early exit whose contract says
  `unchanged(s)`.
- The singletons `Protocol` and `Bundle` (id "windswap") are `Option` fields
  of the store.

## Model

| member | source | states |
|---|---|---|
| Helpers.Scale | src/helpers.ts:18-24 | The divisor is 10^d for d > 0 and 1 for d ≤ 0; it is always ≥ 1. |
| Helpers.ExponentToBigDecimal | src/helpers.ts:18-24 | The loop that multiplies by ten d times returns `Scale(d)`; the loop invariant is `bd == 10^i`. |
| Helpers.ConvertTokenToDecimal | src/helpers.ts:27-32 | result · 10^d equals the raw amount, and d = 0 returns the amount itself. |
| Helpers.ConvertTokenToDecimalSign | src/helpers.ts:27-32 | The converted amount is zero iff the raw amount is zero, and positive iff it is positive. |
| Helpers.ConvertTokenToDecimalAdditive | src/helpers.ts:27-32 | Converting a + b equals converting a and b separately and adding. |
| Helpers.Amount18 | src/voting-escrow.ts:27-31 | The fixed 18-decimal conversion: r · 10^18 equals the raw amount; non-negative for non-negative input. |
| Helpers.Scale18 | src/voting-escrow.ts:29 | `Scale(18)` is the literal divisor 1000000000000000000. |
| Helpers.Abs | src/helpers.ts:35-40 | The result is v or −v and is at least both, so it is \|v\| and never negative. |
| Helpers.AbsIdempotent | src/helpers.ts:35-40 | abs(abs(v)) = abs(v) and abs(−v) = abs(v). |
| Helpers.ToLower | src/helpers.ts:44 | Same length; each character is lower-cased (A–Z shifted by 32, others kept). |
| Helpers.ToLowerIdempotent | src/helpers.ts:44 | Lower-casing twice equals lower-casing once. |
| Helpers.IntText | src/cl-factory.ts:130 | The text of an `i32` spacing: non-empty, never contains a point, and starts with a minus sign exactly for negative values. |
| Helpers.IntegralF64Text | src/position-manager.ts:12-25 | The text of a whole-number `f64` spacing contains a point and is two characters longer than the `i32` text. |
| Helpers.IntTextRoundTrip | src/cl-factory.ts:130 | Reading the `i32` text back gives the integer again. |
| Helpers.IntTextInjective | src/cl-factory.ts:130 | Different spacings give different lookup texts. |
| Helpers.F64TextNeverIntText | src/position-manager.ts:18-25 | No whole-number `f64` text equals any `i32` text. |
| Helpers.IsStablecoin | src/helpers.ts:43-51 | The loop returns true iff some `STABLECOINS` entry equals the lower-cased address. |
| Helpers.StablecoinCaseInsensitive | src/helpers.ts:43-51 | Two addresses with the same lower-case form are both stablecoins or neither. |
| Helpers.GetFeeTierFromTickSpacing | src/helpers.ts:92-101 | The fee is always in [100, 10000], and any spacing outside {1, 10, 50, 60, 100, 200} gets 3000. |
| Helpers.FeeTierMonotoneOnKnownSpacings | src/helpers.ts:92-101 | On the six known spacings, a wider spacing never gets a lower fee. |
| EntityStore.Store.GetOrCreateUser | src/helpers.ts:54-64 | Returns the stored user, or saves one with zero counters; the users map gains exactly that key. |
| EntityStore.Store.GetOrCreateBundle | src/helpers.ts:67-76 | Returns the stored bundle, or saves one with ethPrice 0; an existing bundle is unchanged. |
| EntityStore.Store.GetOrCreateTransaction | src/helpers.ts:79-89 | Keyed by tx hash; the first event's block number and timestamp are kept on later calls. |
| EntityStore.UserOrNew | src/helpers.ts:54-64 | The stored user when present, else totalPositions = totalVeNFTs = 0 and usdSwapped = 0. |
| EntityStore.BundleOrNew | src/helpers.ts:67-76 | The stored bundle when present, else ethPrice 0 and lastUpdated 0. |
| EntityStore.TransactionOrNew | src/helpers.ts:79-89 | The stored record when present, else the event's block number and timestamp. |
| EntityStore.GetOrCreateIdempotent | src/helpers.ts:54-89 | A second get-or-create of a user or transaction returns the same record and adds no new key. |
| EntityStore.MoveOne | src/position-manager.ts:193-206 | NFT transfer on user counters: the new owner (created if needed) gains one and a stored old owner loses one. Every other user is unchanged. |
| EntityStore.MoveOneKeepsTotal | src/position-manager.ts:193-206 | When the old owner is stored, the sum of the counter over all users is unchanged, self-transfers included. |
| EntityStore.SelfMoveIsIdentity | src/position-manager.ts:193-206 | A transfer to the current stored owner leaves every user unchanged. |
| EntityStore.Store.BumpCount | src/voting-escrow.ts:57-59 | Saves one user, created if missing, with a counter moved by delta. The store stays valid, and the total of that counter over all users moves by exactly delta. |
| EntityStore.Store.MoveCount | src/position-manager.ts:193-206 | The saved users are MoveOne of the old ones, the store stays valid, and the total of the counter over all users is unchanged. |
| EntityStore.Bumped | src/voting-escrow.ts:57-59 | One user's counter moves by delta (the user is created with zero counters if missing); the other counter and all other users are unchanged. |
| EntityStore.BumpedSum | src/voting-escrow.ts:94-98 | Changing one user's counter by delta changes the total over all users by exactly delta. |
| TickMath.MagicBelowQ128 | src/tick-math.ts:26-49 | Every one of the 20 magic constants is in (0, 2^128). |
| TickMath.MulShiftShrinks | src/tick-math.ts:31-49 | A multiply-and-shift step by a constant below 2^128 never grows the ratio and strictly lowers a positive one. |
| TickMath.Q128RatioBounds | src/tick-math.ts:18-49 | The pre-inversion ratio lies in [5800441176149320, 2^128], the lower end being the all-bits chain, and is below 2^128 for every non-zero \|tick\| < 2^20. |
| TickMath.Q128RatioAtTick | src/tick-math.ts:18-49 | The pre-inversion ratio of a tick depends on \|tick\| only and lies in [5800441176149320, 2^128]. |
| TickMath.GetSqrtRatioAtTick | src/tick-math.ts:17-62 | The result is the floor of the (possibly inverted) ratio over 2^32, and it is never 0. |
| TickMath.Q128RatioMonotoneInBits | src/tick-math.ts:25-49 | A \|tick\| whose set bits include another's gets a Q128 ratio no larger. |
| TickMath.SqrtRatioMonotoneInBits | src/tick-math.ts:17-62 | t1 ≤ t2 gives price(t1) ≤ price(t2) when t1 ≤ 0 ≤ t2, or when both have the same sign and the bits of the smaller \|tick\| are among those of the larger. |
| TickMath.SqrtRatioAtTickZero | src/tick-math.ts:17-62 | getSqrtRatioAtTick(0) = 2^96 exactly. |
| TickMath.SqrtRatioInversion | src/tick-math.ts:18-59 | t and −t share the Q128 ratio. −t yields ratio >> 32, and t yields (uint256max / ratio) >> 32. |
| TickMath.SqrtRatioNonPositiveTick | src/tick-math.ts:25-59 | For MIN_TICK ≤ tick ≤ 0 the result is ≤ 2^96, and strictly below it for tick < 0. |
| TickMath.SqrtRatioPositiveTick | src/tick-math.ts:51-59 | For 0 < tick ≤ MAX_TICK the result is ≥ 2^96. |
| TickMath.SqrtRatioProductBound | src/tick-math.ts:51-59 | The sqrt prices a at t and b at −t are inverses: 2^192 − a − 2b − 1 ≤ a·b ≤ 2^192. |
| TickMath.GetSqrtRatioAtTickRoundingUp | src/tick-math.ts:58-59 | The corrected last step: the result is the ceiling of (possibly inverted) ratio / 2^32. |
| TickMath.SqrtRatioAtTickOneTruncates | src/tick-math.ts:59 | As written, tick 1 gives 79232123823359799118286999567, one below the rounded-up 79232123823359799118286999568. |
| TickMath.TDiv | src/tick-math.ts:92 | graph-node BigInt division truncates toward zero; it equals Euclidean division for a ≥ 0 and b > 0. |
| TickMath.TDivOdd | src/tick-math.ts:92 | Truncating division commutes with negating the dividend. |
| TickMath.GetAmount0ForLiquidity | src/tick-math.ts:67-93 | 0 when either bound is ≤ 0. Non-negative for liquidity ≥ 0. Otherwise the floor of L·2^96·(upper−lower) / (upper·lower), one division. |
| TickMath.GetAmount1ForLiquidity | src/tick-math.ts:97-112 | 0 for equal bounds. For L ≥ 0, the floor of L·(upper−lower) / 2^96. |
| TickMath.AmountsOrderIndependent | src/tick-math.ts:72-78 | Both amount functions give the same result with their two bounds swapped. |
| TickMath.GetAmountsForLiquidity | src/tick-math.ts:116-146 | Two amounts. Price ≤ lower gives amount1 = 0; price ≥ upper gives amount0 = 0. Inside: amount0 over [price, upper], amount1 over [lower, price]. |
| TickMath.AmountsForLiquidityOrderIndependent | src/tick-math.ts:122-128 | The result does not depend on the order of sqrtRatioA and sqrtRatioB. |
| TickMath.AmountsForLiquidityNonNegative | src/tick-math.ts:130-145 | With liquidity ≥ 0 both amounts are ≥ 0 in every region. |
| ClFactory.NewProtocol | src/cl-factory.ts:16-28 | A new protocol has zero counters and totals, epochCount 0, and governance fields 0. |
| ClFactory.ProtocolAfterPoolCreated | src/cl-factory.ts:14-30 | totalPools grows by exactly 1 and nothing else changes; an absent protocol is first created zeroed. |
| ClFactory.TokenOrNew | src/cl-factory.ts:33-59 | An existing token is returned unchanged. A new one takes each ERC20 read, or "UNKNOWN" / "Unknown Token" / 18 / 0 when the read reverts, and starts with txCount 0 and every volume (trade, trade USD, untracked USD, total USD), price, derivedETH and totalLiquidity at 0. |
| ClFactory.NewPool | src/cl-factory.ts:91-125 | token0/token1/tickSpacing come from the event in order. The factory is the emitting address. Price, liquidity, TVL, volume, fees and the provider count start at 0. |
| ClFactory.HandlePoolCreated | src/cl-factory.ts:13-141 | Writes the protocol, both tokens, the pool, and the lookup `token0-token1-tickSpacing` pointing to the new pool. |
| ClFactory.ExistingTokensUnchanged | src/cl-factory.ts:33-88 | A token already in the store is the same after PoolCreated. |
| ClPool.SwapVolumeUSD | src/cl-pool.ts:86-93 | The USD estimate is non-negative and twice it is the sum of the absolute amounts scaled by 10^18. |
| ClPool.LiquidityUSD | src/cl-pool.ts:148-150 | Twice the USD estimate is the sum of the scaled amounts, and it is ≥ 0 when both amounts are. |
| ClPool.DayIndex | src/cl-pool.ts:34 | day · 86400 ≤ ts < (day + 1) · 86400. |
| ClPool.HourIndex | src/cl-pool.ts:58 | hour · 3600 ≤ ts < (hour + 1) · 3600. |
| ClPool.PoolDayDataFor | src/cl-pool.ts:33-54 | The stored bucket, or a new one with date = day·86400 and all volumes, counts and OHLC fields 0. |
| ClPool.PoolHourDataFor | src/cl-pool.ts:57-74 | The stored bucket, or a new one starting at hour·3600 with zero volumes and counts. |
| ClPool.BucketsBracketEventTime | src/cl-pool.ts:33-74 | In a valid store the bucket a swap updates satisfies date ≤ ts < date + 86400, and likewise for the hour with 3600. |
| ClPool.SwappedPool | src/cl-pool.ts:81-98 | Price, tick and liquidity become the event's. Volumes grow by the absolute scaled amounts, so they never drop. txCount grows by 1. |
| ClPool.SwappedDayData | src/cl-pool.ts:118-124 | Day volumes never drop. txCount grows by 1. tvlUSD is copied from the pool. Every other field (pool, date, feesUSD, OHLC) is kept. |
| ClPool.SwappedHourData | src/cl-pool.ts:127-133 | Hour volumes never drop. txCount grows by 1. tvlUSD is copied from the pool. Every other field (pool, period start, feesUSD) is kept. |
| ClPool.SwappedProtocol | src/cl-pool.ts:136-141 | totalVolumeUSD grows by the swap's USD value and totalSwaps by 1; nothing else changes. |
| ClPool.SwapRecordOf | src/cl-pool.ts:102-115 | The Swap record stores the absolute scaled amounts and the USD value. |
| ClPool.HandleSwap | src/cl-pool.ts:76-142 | An unknown pool changes nothing. Otherwise it writes the pool, the record under txHash-logIndex and both buckets; the protocol changes only if it exists. |
| ClPool.MintedPool | src/cl-pool.ts:148-156 | The three TVL fields grow by the scaled amounts and their USD value; nothing else changes. |
| ClPool.BurnedPool | src/cl-pool.ts:186-194 | The three TVL fields shrink by the same quantities, with no clamping at zero. |
| ClPool.ProtocolTVLMoved | src/cl-pool.ts:174-179 | Moves totalTVLUSD only when the protocol exists. |
| ClPool.MintThenBurnRestoresTVL | src/cl-pool.ts:144-217 | A Mint then a Burn of the same amounts restores the pool and the protocol exactly. |
| ClPool.MintRecordOf | src/cl-pool.ts:158-172 | The Mint record stores the event amount and the scaled amounts with their USD value. |
| ClPool.BurnRecordOf | src/cl-pool.ts:196-209 | The Burn record stores the event amount and the scaled amounts with their USD value. |
| ClPool.HandleMint | src/cl-pool.ts:144-180 | An unknown pool changes nothing; otherwise MintedPool, the record, and the protocol TVL if it exists. |
| ClPool.HandleBurn | src/cl-pool.ts:182-217 | An unknown pool changes nothing; otherwise BurnedPool, the record, and the protocol TVL if it exists. |
| PositionManager.LookupPool | src/position-manager.ts:12-33 | Lower-cases both tokens, tries t0-t1-spacing then t1-t0-spacing, and returns None iff neither key exists. |
| PositionManager.FindPoolIdAsWritten | src/position-manager.ts:12-33 | findPoolId as written: LookupPool with the spacing formatted as an `f64` (IntegralF64Text). |
| PositionManager.FindPoolId | src/position-manager.ts:12-33 | findPoolId corrected: LookupPool with the spacing formatted as the factory's `i32` text (IntText); the handlers use it. |
| PositionManager.AsWrittenLookupMisses | src/position-manager.ts:12-33 | With the spacing formatted as an `f64`, the lookup misses every stored key whose spacing text has no point. |
| PositionManager.AsWrittenNeverResolves | src/position-manager.ts:12-33 | PoolCreated only writes keys whose spacing text has no point, so the lookup as written never finds a pool. |
| PositionManager.CreatedPoolResolves | src/position-manager.ts:12-33 | With the spacing formatted as the factory formats it, the pool resolves after PoolCreated from its pair in either order, given any case of the addresses. |
| PositionManager.NewPosition | src/position-manager.ts:131-149 | A new position holds its owner, pool and ticks, zero liquidity, every amount 0, staked = false, and the event's timestamp and block number as creation stamps. |
| PositionManager.IncreasedPosition | src/position-manager.ts:153-155 | liquidity grows by the event's, deposited grows by the scaled amounts and never drops; nothing else changes. |
| PositionManager.DecreasedPosition | src/position-manager.ts:176-178 | liquidity shrinks by the event's, withdrawn grows and never drops; nothing else changes. |
| PositionManager.IncreaseThenDecreaseRestoresLiquidity | src/position-manager.ts:153-178 | An increase then a decrease of the same liquidity restores liquidity; deposited and withdrawn have only grown. |
| PositionManager.SnapshotOf | src/position-manager.ts:159-167 | The snapshot copies liquidity and deposited totals after the increase, with the event's time and block. |
| PositionManager.ClampAtZero | src/position-manager.ts:86-88 | max(x, 0). |
| PositionManager.UpdatePositionAmounts | src/position-manager.ts:63-89 | A missing pool changes nothing. Otherwise amountN = max(0, depositedN − withdrawnN) and no other field changes. |
| PositionManager.UpdatePositionAmountsIdempotent | src/position-manager.ts:63-89 | Applying it twice equals applying it once. |
| PositionManager.HandleIncreaseLiquidity | src/position-manager.ts:91-168 | An unknown tokenId with a reverted read or no resolvable pool changes nothing. A new position adds 1 to its owner's totalPositions. The position is increased and a snapshot keyed (tokenId, ts) is written. |
| PositionManager.HandleDecreaseLiquidity | src/position-manager.ts:170-180 | A missing position changes nothing; otherwise DecreasedPosition. |
| PositionManager.HandleTransfer | src/position-manager.ts:182-208 | Mints, burns and unknown positions change nothing. Otherwise MoveOne on the users and the owner is re-pointed; the total of totalPositions is unchanged. |
| PositionManager.CollectRecordOf | src/position-manager.ts:223-232 | The Collect record holds the position, recipient, scaled amounts and transaction. |
| PositionManager.CollectedPosition | src/position-manager.ts:216-221 | collectedToken0/1 grow by the scaled amounts and never drop; nothing else changes. |
| PositionManager.HandleCollect | src/position-manager.ts:210-233 | A missing position changes nothing; otherwise CollectedPosition and a record keyed txHash-logIndex. |
| Gauges.NewGauge | src/gauge.ts:165-186 | A new gauge has nothing staked, no investors, a zero reward rate, zero totals (supply, staked, staked liquidity, rewards distributed, reward per token), weight 0, is active, and carries the event's timestamp and block number as creation stamps. |
| Gauges.GaugeCreated | src/gauge.ts:160-194 | The shared body of both factory handlers: overwrite the gauge, and point a known pool's gaugeAddress at it. |
| Gauges.HandleV2GaugeCreated | src/gauge.ts:160-196 | GaugeCreated with gauge type V2. |
| Gauges.HandleCLGaugeCreated | src/gauge.ts:202-238 | GaugeCreated with gauge type CL. |
| Gauges.NewStake | src/gauge.ts:42-54 | A new staked record has a lower-cased userId, zero amount, earned and paid fields, tokenId 0 for V2 (the CL tokenId otherwise), created and last updated at the event time, and no linked position or ticks. |
| Gauges.StakeOrNew | src/gauge.ts:34-57 | The stored staked record or a new one. |
| Gauges.MovedStake | src/gauge.ts:256-257 | The amount moves by delta and the update time is stamped; nothing else changes. |
| Gauges.StakedGauge | src/gauge.ts:260-265 | totalSupply grows by the amount and totalStaked equals it. investorCount grows by 1 iff the record is new, and never drops. |
| Gauges.WithdrawnGauge | src/gauge.ts:284-286 | totalSupply shrinks by the amount, totalStaked equals it, investorCount is kept. |
| Gauges.StakeThenWithdrawRestores | src/gauge.ts:260-286 | A stake then a withdrawal of the same amount restores totalSupply and totalStaked. Only investorCount may have grown. |
| Gauges.HandleStaked | src/gauge.ts:244-266 | An unknown gauge changes nothing; otherwise the V2 record and the gauge are staked. |
| Gauges.HandleWithdrawn | src/gauge.ts:268-287 | An unknown gauge changes nothing. A missing record is skipped, but the supply still drops. |
| Gauges.LinkedStake | src/gauge.ts:413-415 | The staked record points to the NFT position and copies its ticks; nothing else changes. |
| Gauges.HandleCLStaked | src/gauge.ts:369-418 | An unknown gauge changes nothing. Otherwise stakes under user-gauge-tokenId; a known position is marked staked in this gauge and linked. |
| Gauges.HandleCLWithdrawn | src/gauge.ts:420-447 | An unknown gauge changes nothing. Lowers the record (if any) and the supply, and un-stakes the position only when the record's amount is now ≤ 0. |
| Gauges.ClaimedStake | src/gauge.ts:299-304 | earned grows by the claim and is never reset; nothing else but the time changes. |
| Gauges.ProfileOrNew | src/gauge.ts:311-325 | The stored profile, or a zeroed one whose first and last activity are the event time. |
| Gauges.ProfilesAfterClaim | src/gauge.ts:306-329 | With ethPrice ≤ 0 nothing changes. Otherwise only the claimer's totalRewardsClaimedUSD grows by amount·ethPrice and the activity time is stamped. |
| Gauges.HandleClaimed | src/gauge.ts:289-330 | An unknown gauge changes nothing. Otherwise credits an existing V2 record, creates the bundle if needed and updates the profile. |
| Gauges.BigEndian | src/gauge.ts:461 | The unsigned big-endian value of n bytes is below 256^n. |
| Gauges.Reverse | src/gauge.ts:466 | Reversal keeps the length. |
| Gauges.LittleEndianOfReverse | src/gauge.ts:466 | fromUnsignedBytes (little-endian) of the reversed bytes is their big-endian value. |
| Gauges.BigEndianRoundTrip | src/gauge.ts:461 | Decoding the width-byte big-endian encoding of n < 256^width gives back n. |
| Gauges.TokenIdFromInput | src/gauge.ts:459-466 | A token id is decoded iff the input has at least 36 bytes. |
| Gauges.TokenIdFromAbiCall | src/gauge.ts:457-466 | For input = 4-byte selector ++ uint256 encoding of id ++ anything, the decoded id is id. |
| Gauges.DecodeTokenId | src/gauge.ts:459-466 | The copy loop over bytes 4..35, the reversal and the little-endian read compute TokenIdFromInput. |
| Gauges.HandleCLClaimed | src/gauge.ts:449-501 | An unknown gauge changes nothing. The record of the decoded token id (when decodable and present) is credited, and the profile is updated as in the V2 claim. |
| Gauges.GetCurrentEpoch | src/gauge.ts:60-66 | The epoch is Protocol.epochCount, or 0 without a protocol. |
| Gauges.EpochDataOrNew | src/gauge.ts:69-84 | The stored gauge-epoch record, or one with all totals 0 stamped with the event time. |
| Gauges.CalculateUSDBasedAPR | src/gauge.ts:87-154 | With pool and both tokens known, ethPrice > 0, TVL > 0 (and, for V2, something staked): rate·31536000·ethPrice/TVL·100. Otherwise rate·31536000/totalStaked·100, or 0 with nothing staked. Never divides by a non-positive value; non-negative for a non-negative rate. |
| Gauges.NotifiedGauge | src/gauge.ts:337-353 | currentRewardRate = reward/604800. lastUpdateTime = ts, periodFinish = ts + 604800. totalRewardsDistributed grows by the reward. Every other field is kept: pool, gauge type, pool address, supply, staked total, weight, isActive, investors and the creation stamps. |
| Gauges.RewardRateIsWeiPerSecond | src/gauge.ts:344-345 | The integer rewardRate, truncate(rate·10^18), equals the raw amount div 604800. |
| Gauges.HandleRewardAdded | src/gauge.ts:332-363 | An unknown gauge changes nothing. Otherwise NotifiedGauge with the computed APR; the current epoch's emissions grow by the reward (record created if absent) and the bundle is created if needed. |
| Gauges.HandleCLRewardAdded | src/gauge.ts:503-534 | The same effect as HandleRewardAdded. |
| VotingRewards.UsdValue | src/voting-reward.ts:51-54 | amount · priceUSD when priceUSD > 0, else 0; non-negative for a non-negative amount. |
| VotingRewards.CreditedEpoch | src/voting-reward.ts:139-149 | A fee with a known pool adds to fee0 iff the token is pool.token0, else to fee1 iff it is pool.token1, else nowhere. A bribe adds its USD value to totalBribes. The two never both apply; votingWeight, emissions and the key are kept. |
| VotingRewards.CreditNeverLowers | src/voting-reward.ts:139-149 | A non-negative reward never lowers any fee or bribe total. |
| VotingRewards.HandleClaimRewards | src/voting-reward.ts:30-101 | A missing source, gauge, pool or token, or a zero amount, changes nothing. Otherwise registers the recipient and writes the claim with the current epoch. Only an existing current-epoch record is credited; none is created. |
| VotingRewards.HandleNotifyReward | src/voting-reward.ts:103-152 | A missing source, gauge or token changes nothing. Otherwise the record for the event's own epoch is created if absent, credited, and saved, even when the pool is missing. |
| VotingEscrow.NewVeNFT | src/voting-escrow.ts:41-61 | A new veNFT is not permanent, has no claims and has not voted. |
| VotingEscrow.DepositedVeNFT | src/voting-escrow.ts:64-82 | lockedAmount = value/10^18. lockEnd and isPermanent come from locked() when it answers, else lockEnd = locktime. votingPower = balanceOfNFT/10^18, else lockedAmount. Nothing else changes. |
| VotingEscrow.DepositOverwritesLock | src/voting-escrow.ts:65-74 | The result does not depend on the previous lockedAmount or votingPower: a Deposit overwrites, it does not accumulate. |
| VotingEscrow.HandleDeposit | src/voting-escrow.ts:33-85 | A new tokenId whose ownerOf reverts changes nothing. A new veNFT adds 1 to its owner's totalVeNFTs, once. The sum of totalVeNFTs grows exactly by the number of new veNFTs. |
| VotingEscrow.WithdrawnVeNFT | src/voting-escrow.ts:100-103 | lockedAmount and votingPower are 0; nothing else changes. |
| VotingEscrow.HandleWithdraw | src/voting-escrow.ts:87-104 | An unknown veNFT changes nothing. Otherwise the owner holds one fewer (the sum of totalVeNFTs drops by 1) and the lock is zeroed. |
| VotingEscrow.HandleVeTransfer | src/voting-escrow.ts:106-137 | Mints, burns and unknown veNFTs change nothing. Otherwise one count moves to the recipient; the sum of totalVeNFTs is unchanged. |
| VotingEscrow.PermanentVeNFT | src/voting-escrow.ts:145-146 | isPermanent = true and lockEnd = 0; nothing else changes. |
| VotingEscrow.LockPermanentIdempotent | src/voting-escrow.ts:139-147 | LockPermanent twice is the same as once. |
| VotingEscrow.HandleLockPermanent | src/voting-escrow.ts:139-148 | An unknown veNFT changes nothing; otherwise PermanentVeNFT. |
| ProtocolGovernor.CopyAll | src/protocol-governor.ts:19-35 | The push loop yields an array equal to the event array, element by element. |
| ProtocolGovernor.NewProposal | src/protocol-governor.ts:14-53 | The event's fields and arrays (description included), the event's timestamp and block number as creation stamps, three zero tallies, state 0 (Pending), not executed or canceled, no execution time. |
| ProtocolGovernor.HandleProposalCreated | src/protocol-governor.ts:10-56 | Writes NewProposal under the proposal id. |
| ProtocolGovernor.CanceledProposal | src/protocol-governor.ts:63-64 | canceled and state 2; nothing else changes. |
| ProtocolGovernor.ExecutedProposal | src/protocol-governor.ts:74-76 | executed, state 7 and the execution time; nothing else changes. |
| ProtocolGovernor.HandleProposalCanceled | src/protocol-governor.ts:58-67 | A missing proposal changes nothing; otherwise CanceledProposal. |
| ProtocolGovernor.HandleProposalExecuted | src/protocol-governor.ts:69-79 | A missing proposal changes nothing; otherwise ExecutedProposal. |
| ProtocolGovernor.TalliedProposal | src/protocol-governor.ts:103-117 | Support 0/1/2 adds the weight to against/for/abstain, anything else to none. The tally sum grows by the weight iff support ∈ {0,1,2}. Pending becomes Active and every other state is kept. |
| ProtocolGovernor.TallyOrderIndependent | src/protocol-governor.ts:106-117 | Two votes in either order give the same proposal. |
| ProtocolGovernor.VoteOf | src/protocol-governor.ts:88-96 | The vote record copies proposal, voter, tokenId, support, weight, the event's timestamp and transaction. |
| ProtocolGovernor.HandleVoteCast | src/protocol-governor.ts:81-121 | Always writes the vote under (proposal, voter, tokenId), overwriting a recast. Tallies a known proposal, again on a recast. |
| RewardsDistributor.NewRewards | src/rewards-distributor.ts:19-25 | A new record has claimable, claimed, rebases and incentives all 0. |
| RewardsDistributor.RewardsOrNew | src/rewards-distributor.ts:17-26 | The stored record or a new one. |
| RewardsDistributor.ClaimedRewards | src/rewards-distributor.ts:29-32 | claimed grows by the claim and claimed + claimable is unchanged. The claim time is stamped; rebases and incentives are kept. |
| RewardsDistributor.ClaimsAccumulate | src/rewards-distributor.ts:29-32 | Two claims equal one claim of their sum. |
| RewardsDistributor.HandleVeNFTClaimed | src/rewards-distributor.ts:5-39 | An unknown veNFT changes nothing. Otherwise rewards.claimed and veNFT.totalClaimed grow by the same amount/10^18. |
| Minter.MintedProtocol | src/minter.ts:7-21 | activePeriod = the event's timestamp and epochCount grows by 1, other fields kept. An absent protocol is created with epochCount 1, so it is 2 after the Mint, with governance fields unset. |
| Minter.MintAdvancesEpoch | src/minter.ts:7-21 | The epoch the gauges and voting rewards read grows by 1 per Mint. The first Mint without a protocol jumps from 0 to 2. |
| Minter.HandleMint | src/minter.ts:5-24 | Saves MintedProtocol. |

## Left out

- src/voter.ts is not part of this model. It only copies event parameters into a record per event and keeps no aggregate.
- scripts/verify-contracts.js is not part of this model. It is file-system tooling.
- Data-source template registration (`GaugeTemplate.create`, `CLGaugeTemplate.create`, `CLPoolTemplate.create`) is host plumbing with no state in the store.
- USD price discovery, bundle price refresh, TVL recomputation from prices, OHLC updates and per-swap fee accrual are absent from the modelled code. The OHLC fields stay 0, and `ethPrice` is only ever created as 0.
- The `VotingRewardSource` table is read, never written, by the modelled code. The model takes it as part of the store.
- graph-node `BigDecimal` rounds to about 34 significant digits; every decimal here is an exact `real`.
- Helpers.ToLower: lower-cases ASCII A–Z only. Hex addresses are ASCII, and no wider Unicode case mapping is modelled.
- ClPool.DayIndex: the source converts the timestamp with `toI32()` before dividing. The model uses the unbounded timestamp, so i32 overflow after 2038 is not modelled.
- TickMath.GetSqrtRatioAtTick: monotonicity in the tick is proved only in the cases SqrtRatioMonotoneInBits covers (across tick 0, and between ticks of one sign whose \|tick\| bits include one another), not for every pair such as ticks 1 and 2. The general case would need error bounds relating each truncating step to the exact powers of 1.0001, which the model does not carry. Its `requires MIN_TICK <= tick <= MAX_TICK` is the declared range, which the source never checks.
- PositionManager.FindPoolId formats the spacing as an `i32`, as the factory does. The source's `findPoolId` takes the spacing as an `f64` and formats 60 as "60.0", so as written it never matches a factory key; FindPoolIdAsWritten models that (see Findings).
- Event amounts that are `uint256` are `nat`. The swap's signed amounts are `int`. No 256-bit wrap-around is modelled.
- The `SECONDS_PER_WEEK > 0` guard in the notify handlers always holds, so the model has no branch for it.
- The getOrCreateUser copies in src/voting-escrow.ts and src/voter.ts leave `usdSwapped` unset. The model stores 0, as the shared helper does.
- The STABLECOINS entries being already lower-case is not stated as a lemma. Membership is stated against the list as written.
- Gauges.CalculateUSDBasedAPR: the source creates the bundle inside this function. The model reads the bundle's price as a parameter, and the notify handlers create the bundle first.

## Findings

| source | as written | input that shows it | evidently intended | confidence | as-written member | corrected member |
|---|---|---|---|---|---|---|
| src/position-manager.ts:12-25 | `tickSpacing: number` is an `f64`, so `tickSpacing.toString()` formats 60 as "60.0", while src/cl-factory.ts:130 writes the key with the `i32` text "60" | PoolCreated(t0, t1, spacing 60), then IncreaseLiquidity for a new position on (t0, t1, 60): the lookup tries `t0-t1-60.0` and `t1-t0-60.0`, misses, and no Position is created | The lookup formats the spacing as the factory does, so the key `t0-t1-60` is found | plausible; not executed | PositionManager.AsWrittenNeverResolves | PositionManager.CreatedPoolResolves |
| src/tick-math.ts:59 | `ratio.rightShift(32)` truncates the Q128 ratio to Q96 | tick = 1 gives 79232123823359799118286999567 | The Uniswap V3 `getSqrtRatioAtTick` this ports rounds up: `(ratio >> 32) + (ratio % 2^32 == 0 ? 0 : 1)`, giving 79232123823359799118286999568 | not executed | TickMath.SqrtRatioAtTickOneTruncates | TickMath.GetSqrtRatioAtTickRoundingUp |
