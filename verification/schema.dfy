/**
 * Entity records of the subgraph store and the keys they are stored under.
 *
 * Every entity the handlers load and save is a value here; the store
 * (EntityStore.Store) holds one map per entity type. String ids built by
 * concatenation (`txHash + "-" + logIndex`, `token0-token1-tickSpacing`, ...)
 * become tuple keys, so two ids are equal exactly when their parts are.
 * BigInt fields are `int`, BigDecimal fields are exact `real`, and nullable
 * fields are `Option`s.
 */
module Schema {
  import opened Helpers

  /** Addresses and string ids, as lower-case hex strings. */
  type Address = string

  const ZERO_ADDRESS: Address := "0x0000000000000000000000000000000000000000"

  /** The block, transaction and log an event was emitted in. */
  datatype EventMeta = EventMeta(
    address: Address,       // the emitting contract
    blockNumber: int,
    timestamp: nat,
    txHash: string,
    logIndex: int,
    txInput: seq<Byte>)

  /** `txHash-logIndex`, the id of every per-event record. */
  datatype EventKey = EventKey(txHash: string, logIndex: int)

  function KeyOf(ev: EventMeta): EventKey
  {
    EventKey(ev.txHash, ev.logIndex)
  }

  /** `token0-token1-tickSpacing`: the spacing as the text the writer formatted */
  datatype LookupKey = LookupKey(token0: Address, token1: Address, tickSpacing: string)

  /** `pool-dayIndex` / `pool-hourIndex` */
  datatype BucketKey = BucketKey(pool: Address, index: int)

  /** `user-gauge` for V2 gauges, `user-gauge-tokenId` for CL gauges. */
  datatype StakeKey =
    | V2Stake(user: Address, gauge: Address)
    | CLStake(user: Address, gauge: Address, tokenId: int)

  /** `gauge-epoch` */
  datatype EpochKey = EpochKey(gauge: Address, epoch: int)

  /** `proposalId-voter-tokenId` */
  datatype VoteKey = VoteKey(proposalId: int, voter: Address, tokenId: int)

  /** `tokenId-timestamp` */
  datatype SnapshotKey = SnapshotKey(tokenId: int, timestamp: int)

  /** The singleton "windswap" protocol aggregate. */
  datatype Protocol = Protocol(
    totalVolumeUSD: real,
    totalTVLUSD: real,
    totalPools: int,
    totalSwaps: int,
    activePeriod: int,
    epochCount: int,
    proposalThreshold: Option<int>,
    votingDelay: Option<int>,
    votingPeriod: Option<int>)

  datatype Token = Token(
    symbol: string,
    name: string,
    decimals: int,
    totalSupply: int,
    tradeVolume: real,
    tradeVolumeUSD: real,
    untrackedVolumeUSD: real,
    totalVolumeUSD: real,
    txCount: int,
    totalLiquidity: real,
    derivedETH: real,
    priceUSD: real)

  datatype Pool = Pool(
    token0: Address,
    token1: Address,
    tickSpacing: int,
    sqrtPriceX96: int,
    tick: int,
    liquidity: int,
    totalValueLockedToken0: real,
    totalValueLockedToken1: real,
    totalValueLockedUSD: real,
    volumeToken0: real,
    volumeToken1: real,
    volumeUSD: real,
    feesUSD: real,
    feesToken0: real,
    feesToken1: real,
    txCount: int,
    token0Price: real,
    token1Price: real,
    untrackedVolumeUSD: real,
    createdAtTimestamp: int,
    createdAtBlockNumber: int,
    factory: Address,
    liquidityProviderCount: int,
    totalRewards: real,
    gaugeAddress: Option<Address>)

  datatype PoolLookup = PoolLookup(pool: Address, token0: Address, token1: Address, tickSpacing: int)

  datatype PoolDayData = PoolDayData(
    pool: Address,
    date: int,
    volumeToken0: real,
    volumeToken1: real,
    volumeUSD: real,
    tvlUSD: real,
    feesUSD: real,
    txCount: int,
    open: real,
    high: real,
    low: real,
    close: real)

  datatype PoolHourData = PoolHourData(
    pool: Address,
    periodStartTimestamp: int,
    volumeToken0: real,
    volumeToken1: real,
    volumeUSD: real,
    tvlUSD: real,
    feesUSD: real,
    txCount: int)

  datatype SwapRecord = SwapRecord(
    pool: Address,
    sender: Address,
    recipient: Address,
    amount0: real,
    amount1: real,
    amountUSD: real,
    sqrtPriceX96: int,
    tick: int,
    timestamp: int,
    blockNumber: int,
    transaction: string)

  datatype MintRecord = MintRecord(
    pool: Address,
    owner: Address,
    sender: Address,
    tickLower: int,
    tickUpper: int,
    amount: int,
    amount0: real,
    amount1: real,
    amountUSD: real,
    timestamp: int,
    transaction: string)

  datatype BurnRecord = BurnRecord(
    pool: Address,
    owner: Address,
    tickLower: int,
    tickUpper: int,
    amount: int,
    amount0: real,
    amount1: real,
    amountUSD: real,
    timestamp: int,
    transaction: string)

  datatype User = User(totalPositions: int, totalVeNFTs: int, usdSwapped: real)

  /** The singleton "windswap" price bundle. */
  datatype Bundle = Bundle(ethPrice: real, lastUpdated: int)

  datatype Transaction = Transaction(blockNumber: int, timestamp: int)

  /** A concentrated-liquidity NFT position, keyed by its token id. */
  datatype Position = Position(
    tokenId: int,
    owner: Address,
    pool: Address,
    tickLower: int,
    tickUpper: int,
    liquidity: int,
    amount0: real,
    amount1: real,
    depositedToken0: real,
    depositedToken1: real,
    withdrawnToken0: real,
    withdrawnToken1: real,
    collectedToken0: real,
    collectedToken1: real,
    staked: bool,
    stakedGauge: Option<Address>,
    createdAtTimestamp: int,
    createdAtBlockNumber: int)

  datatype PositionSnapshot = PositionSnapshot(
    position: int,
    liquidity: int,
    depositedToken0: real,
    depositedToken1: real,
    timestamp: int,
    blockNumber: int)

  datatype CollectRecord = CollectRecord(
    position: int,
    recipient: Address,
    amount0: real,
    amount1: real,
    timestamp: int,
    transaction: string)

  datatype GaugeType = V2 | CL

  datatype Gauge = Gauge(
    pool: Address,
    gaugeType: GaugeType,
    poolAddress: Address,
    rewardRate: int,
    totalStakedLiquidity: int,
    totalSupply: real,
    totalStaked: real,
    weight: int,
    isActive: bool,
    investorCount: int,
    totalRewardsDistributed: real,
    currentRewardRate: real,
    periodFinish: int,
    lastUpdateTime: int,
    rewardPerTokenStored: real,
    estimatedAPR: real,
    createdAtTimestamp: int,
    createdAtBlockNumber: int)

  datatype GaugeStakedPosition = GaugeStakedPosition(
    user: Address,
    userId: string,
    gauge: Address,
    amount: real,
    earned: real,
    rewardPerTokenPaid: real,
    tokenId: int,
    lastUpdateTimestamp: int,
    createdAtTimestamp: int,
    position: Option<int>,
    tickLower: Option<int>,
    tickUpper: Option<int>)

  datatype GaugeEpochData = GaugeEpochData(
    gauge: Address,
    epoch: int,
    votingWeight: int,
    feeRewardToken0: real,
    feeRewardToken1: real,
    totalBribes: real,
    emissions: real,
    timestamp: int)

  datatype UserProfile = UserProfile(
    user: Address,
    totalPositionsValueUSD: real,
    totalStakedValueUSD: real,
    totalVeNFTValueUSD: real,
    totalRewardsClaimedUSD: real,
    totalFeesEarnedUSD: real,
    totalSwaps: int,
    totalProvides: int,
    totalWithdraws: int,
    firstActivityTimestamp: int,
    lastActivityTimestamp: int)

  /** Which gauge and pool a voting-reward contract pays for, and whether it pays fees or bribes. */
  datatype VotingRewardSource = VotingRewardSource(gauge: Address, pool: Address, rewardType: string)

  datatype VotingRewardClaim = VotingRewardClaim(
    user: Address,
    gauge: Address,
    pool: Address,
    rewardType: string,
    rewardToken: Address,
    amount: real,
    amountUSD: real,
    epoch: int,
    timestamp: int)

  /** A vote-escrow lock NFT, keyed by its token id. */
  datatype VeNFT = VeNFT(
    tokenId: int,
    owner: Address,
    lockedAmount: real,
    lockEnd: int,
    isPermanent: bool,
    votingPower: real,
    createdAtTimestamp: int,
    claimableRewards: real,
    totalClaimed: real,
    lastVoted: int,
    hasVoted: bool)

  datatype Proposal = Proposal(
    proposalId: int,
    proposer: Address,
    targets: seq<Address>,
    values: seq<int>,
    calldatas: seq<seq<Byte>>,
    description: string,
    voteStart: int,
    voteEnd: int,
    forVotes: int,
    againstVotes: int,
    abstainVotes: int,
    state: int,
    executed: bool,
    canceled: bool,
    createdAtTimestamp: int,
    createdAtBlockNumber: int,
    executedAtTimestamp: Option<int>)

  datatype ProposalVote = ProposalVote(
    proposal: int,
    voter: Address,
    tokenId: int,
    support: int,
    weight: int,
    timestamp: int,
    transaction: string)

  datatype VeNFTRewards = VeNFTRewards(
    veNFT: int,
    claimable: real,
    claimed: real,
    rebases: real,
    incentives: real,
    lastClaimTimestamp: int)
}
