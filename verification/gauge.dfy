/**
 * Gauges (src/gauge.ts): creation from the V2 and CL gauge factories, staking
 * and withdrawing (which keep `totalStaked` equal to `totalSupply`), reward
 * claims, reward notifications with the reward rate, APR and per-epoch
 * emissions, and the ABI decoding of the CL claim's token id.
 */
module Gauges {
  import opened Helpers
  import opened Schema
  import opened EntityStore

  const SECONDS_PER_WEEK: int := 604800
  const SECONDS_PER_YEAR: int := 31536000

  datatype GaugeCreatedEvent = GaugeCreatedEvent(meta: EventMeta, gauge: Address, pool: Address)

  /** Deposit and Withdraw of a V2 gauge (`to` / `from`) and of a CL gauge (`user`, `tokenId`). */
  datatype StakeEvent = StakeEvent(meta: EventMeta, user: Address, tokenId: nat, amount: nat)

  datatype ClaimEvent = ClaimEvent(meta: EventMeta, from: Address, amount: nat)

  datatype NotifyEvent = NotifyEvent(meta: EventMeta, amount: nat)

  // ---------------------------------------------------------------- creation

  /** A gauge as the factories create it: nothing staked, no investors, no rewards, active. */
  function NewGauge(ev: GaugeCreatedEvent, gaugeType: GaugeType): (g: Gauge)
    ensures g.pool == ev.pool && g.poolAddress == ev.pool && g.gaugeType == gaugeType
    ensures g.totalSupply == 0.0 && g.totalStaked == 0.0 && g.investorCount == 0 && g.isActive
    ensures g.rewardRate == 0 && g.currentRewardRate == 0.0 && g.totalRewardsDistributed == 0.0
    ensures g.periodFinish == 0 && g.lastUpdateTime == 0 && g.estimatedAPR == 0.0
    ensures g.weight == 0 && g.totalStakedLiquidity == 0 && g.rewardPerTokenStored == 0.0
    ensures g.createdAtTimestamp == ev.meta.timestamp && g.createdAtBlockNumber == ev.meta.blockNumber
  {
    Gauge(ev.pool, gaugeType, ev.pool, 0, 0, 0.0, 0.0, 0, true, 0, 0.0, 0.0, 0, 0, 0.0, 0.0,
          ev.meta.timestamp, ev.meta.blockNumber)
  }

  /** The gauge-factory handlers: overwrite the gauge, and point a known pool at it. */
  method GaugeCreated(s: Store, ev: GaugeCreatedEvent, gaugeType: GaugeType)
    requires s.Valid()
    modifies s`gauges, s`pools
    ensures s.Valid()
    ensures s.gauges == old(s.gauges)[ev.gauge := NewGauge(ev, gaugeType)]
    ensures s.pools == if ev.pool in old(s.pools)
                       then old(s.pools)[ev.pool := old(s.pools)[ev.pool].(gaugeAddress := Some(ev.gauge))]
                       else old(s.pools)
  {
    s.gauges := s.gauges[ev.gauge := NewGauge(ev, gaugeType)];
    if ev.pool in s.pools {
      s.pools := s.pools[ev.pool := s.pools[ev.pool].(gaugeAddress := Some(ev.gauge))];
    }
  }

  /** `handleV2GaugeCreated`. The Gauge template registration is not modelled. */
  method HandleV2GaugeCreated(s: Store, ev: GaugeCreatedEvent)
    requires s.Valid()
    modifies s`gauges, s`pools
    ensures s.Valid()
    ensures s.gauges == old(s.gauges)[ev.gauge := NewGauge(ev, V2)]
    ensures s.pools == if ev.pool in old(s.pools)
                       then old(s.pools)[ev.pool := old(s.pools)[ev.pool].(gaugeAddress := Some(ev.gauge))]
                       else old(s.pools)
  {
    GaugeCreated(s, ev, V2);
  }

  /** `handleCLGaugeCreated`: the same with gauge type CL. */
  method HandleCLGaugeCreated(s: Store, ev: GaugeCreatedEvent)
    requires s.Valid()
    modifies s`gauges, s`pools
    ensures s.Valid()
    ensures s.gauges == old(s.gauges)[ev.gauge := NewGauge(ev, CL)]
    ensures s.pools == if ev.pool in old(s.pools)
                       then old(s.pools)[ev.pool := old(s.pools)[ev.pool].(gaugeAddress := Some(ev.gauge))]
                       else old(s.pools)
  {
    GaugeCreated(s, ev, CL);
  }

  // ---------------------------------------------------------------- staking

  /** A fresh staked-position record for this key (`getOrCreateGaugeStakedPosition` and its CL copy). */
  function NewStake(key: StakeKey, ts: int): (p: GaugeStakedPosition)
    ensures p.user == key.user && p.userId == ToLower(key.user) && p.gauge == key.gauge
    ensures p.amount == 0.0 && p.earned == 0.0 && p.rewardPerTokenPaid == 0.0
    ensures p.tokenId == (if key.CLStake? then key.tokenId else 0)
    ensures p.createdAtTimestamp == ts && p.lastUpdateTimestamp == ts
    ensures p.position == None && p.tickLower == None && p.tickUpper == None
  {
    GaugeStakedPosition(key.user, ToLower(key.user), key.gauge, 0.0, 0.0, 0.0,
                        if key.CLStake? then key.tokenId else 0, ts, ts, None, None, None)
  }

  function StakeOrNew(stakes: map<StakeKey, GaugeStakedPosition>, key: StakeKey, ts: int): (p: GaugeStakedPosition)
    ensures key in stakes ==> p == stakes[key]
    ensures key !in stakes ==> p == NewStake(key, ts)
  {
    if key in stakes then stakes[key] else NewStake(key, ts)
  }

  /** The staked position after a deposit (`delta` > 0) or withdrawal (`delta` < 0). */
  function MovedStake(p: GaugeStakedPosition, delta: real, ts: int): (q: GaugeStakedPosition)
    ensures q.amount == p.amount + delta && q.lastUpdateTimestamp == ts
    ensures q.(amount := p.amount, lastUpdateTimestamp := p.lastUpdateTimestamp) == p
  {
    p.(amount := p.amount + delta, lastUpdateTimestamp := ts)
  }

  /** The gauge after a stake: supply grows, `totalStaked` follows it, a new record adds an investor. */
  function StakedGauge(g: Gauge, amount: real, isNew: bool): (h: Gauge)
    ensures h.totalSupply == g.totalSupply + amount && h.totalStaked == h.totalSupply
    ensures h.investorCount == g.investorCount + (if isNew then 1 else 0) >= g.investorCount
    ensures h.(totalSupply := g.totalSupply, totalStaked := g.totalStaked, investorCount := g.investorCount) == g
  {
    g.(totalSupply := g.totalSupply + amount, totalStaked := g.totalSupply + amount,
       investorCount := if isNew then g.investorCount + 1 else g.investorCount)
  }

  /** The gauge after a withdrawal: supply shrinks, `totalStaked` follows it, investors are kept. */
  function WithdrawnGauge(g: Gauge, amount: real): (h: Gauge)
    ensures h.totalSupply == g.totalSupply - amount && h.totalStaked == h.totalSupply
    ensures h.(totalSupply := g.totalSupply, totalStaked := g.totalStaked) == g
  {
    g.(totalSupply := g.totalSupply - amount, totalStaked := g.totalSupply - amount)
  }

  /** Staking and then withdrawing the same amount restores supply and `totalStaked`. */
  lemma StakeThenWithdrawRestores(g: Gauge, amount: real, isNew: bool)
    requires g.totalStaked == g.totalSupply
    ensures var h := WithdrawnGauge(StakedGauge(g, amount, isNew), amount);
            h.totalSupply == g.totalSupply && h.totalStaked == g.totalStaked
            && h == g.(investorCount := g.investorCount + (if isNew then 1 else 0))
  {
  }

  /** `handleStaked` (V2): no-op for an unknown gauge; otherwise stakes under `user-gauge`. */
  method HandleStaked(s: Store, ev: StakeEvent)
    requires s.Valid()
    modifies s`gauges, s`stakes
    ensures s.Valid()
    ensures ev.meta.address !in old(s.gauges) ==> unchanged(s)
    ensures ev.meta.address in old(s.gauges) ==>
      var key := V2Stake(ev.user, ev.meta.address);
      && s.stakes == old(s.stakes)[key := MovedStake(StakeOrNew(old(s.stakes), key, ev.meta.timestamp), Amount18(ev.amount), ev.meta.timestamp)]
      && s.gauges == old(s.gauges)[ev.meta.address :=
           StakedGauge(old(s.gauges)[ev.meta.address], Amount18(ev.amount), key !in old(s.stakes))]
  {
    var addr := ev.meta.address;
    if addr !in s.gauges {
      return;
    }
    var amount := Amount18(ev.amount);
    var key := V2Stake(ev.user, addr);
    var isNew := key !in s.stakes;
    var position := StakeOrNew(s.stakes, key, ev.meta.timestamp);
    s.stakes := s.stakes[key := MovedStake(position, amount, ev.meta.timestamp)];
    s.gauges := s.gauges[addr := StakedGauge(s.gauges[addr], amount, isNew)];
  }

  /** `handleWithdrawn` (V2): no-op for an unknown gauge; a missing staked record is skipped but supply still drops. */
  method HandleWithdrawn(s: Store, ev: StakeEvent)
    requires s.Valid()
    modifies s`gauges, s`stakes
    ensures s.Valid()
    ensures ev.meta.address !in old(s.gauges) ==> unchanged(s)
    ensures ev.meta.address in old(s.gauges) ==>
      var key := V2Stake(ev.user, ev.meta.address);
      && s.stakes == (if key in old(s.stakes)
                      then old(s.stakes)[key := MovedStake(old(s.stakes)[key], -Amount18(ev.amount), ev.meta.timestamp)]
                      else old(s.stakes))
      && s.gauges == old(s.gauges)[ev.meta.address := WithdrawnGauge(old(s.gauges)[ev.meta.address], Amount18(ev.amount))]
  {
    var addr := ev.meta.address;
    if addr !in s.gauges {
      return;
    }
    var amount := Amount18(ev.amount);
    var key := V2Stake(ev.user, addr);
    if key in s.stakes {
      s.stakes := s.stakes[key := MovedStake(s.stakes[key], -amount, ev.meta.timestamp)];
    }
    s.gauges := s.gauges[addr := WithdrawnGauge(s.gauges[addr], amount)];
  }

  /** Links a CL staked record to its NFT position. */
  function LinkedStake(p: GaugeStakedPosition, tokenId: int, pos: Position): (q: GaugeStakedPosition)
    ensures q.position == Some(tokenId) && q.tickLower == Some(pos.tickLower) && q.tickUpper == Some(pos.tickUpper)
    ensures q.(position := p.position, tickLower := p.tickLower, tickUpper := p.tickUpper) == p
  {
    p.(position := Some(tokenId), tickLower := Some(pos.tickLower), tickUpper := Some(pos.tickUpper))
  }

  /**
   * `handleCLStaked`: no-op for an unknown gauge; otherwise stakes under
   * `user-gauge-tokenId` and, when the NFT position is indexed, marks it staked
   * in this gauge and copies its ticks onto the staked record.
   */
  method HandleCLStaked(s: Store, ev: StakeEvent)
    requires s.Valid()
    modifies s`gauges, s`stakes, s`positions
    ensures s.Valid()
    ensures ev.meta.address !in old(s.gauges) ==> unchanged(s)
    ensures ev.meta.address in old(s.gauges) ==>
      var key := CLStake(ev.user, ev.meta.address, ev.tokenId);
      var staked := MovedStake(StakeOrNew(old(s.stakes), key, ev.meta.timestamp), Amount18(ev.amount), ev.meta.timestamp);
      && s.gauges == old(s.gauges)[ev.meta.address :=
           StakedGauge(old(s.gauges)[ev.meta.address], Amount18(ev.amount), key !in old(s.stakes))]
      && (ev.tokenId !in old(s.positions) ==>
            s.stakes == old(s.stakes)[key := staked] && s.positions == old(s.positions))
      && (ev.tokenId in old(s.positions) ==>
            var pos := old(s.positions)[ev.tokenId];
            && s.stakes == old(s.stakes)[key := LinkedStake(staked, ev.tokenId, pos)]
            && s.positions == old(s.positions)[ev.tokenId := pos.(staked := true, stakedGauge := Some(ev.meta.address))])
  {
    var addr := ev.meta.address;
    if addr !in s.gauges {
      return;
    }
    var amount := Amount18(ev.amount);
    var key := CLStake(ev.user, addr, ev.tokenId);
    var isNew := key !in s.stakes;
    var position := MovedStake(StakeOrNew(s.stakes, key, ev.meta.timestamp), amount, ev.meta.timestamp);
    s.stakes := s.stakes[key := position];
    s.gauges := s.gauges[addr := StakedGauge(s.gauges[addr], amount, isNew)];

    if ev.tokenId in s.positions {
      var pos := s.positions[ev.tokenId];
      s.positions := s.positions[ev.tokenId := pos.(staked := true, stakedGauge := Some(addr))];
      s.stakes := s.stakes[key := LinkedStake(position, ev.tokenId, pos)];
    }
  }

  /**
   * `handleCLWithdrawn`: no-op for an unknown gauge; otherwise lowers the staked
   * record (if any) and the supply, and un-stakes the NFT position once the
   * record's amount has dropped to zero or below.
   */
  method HandleCLWithdrawn(s: Store, ev: StakeEvent)
    requires s.Valid()
    modifies s`gauges, s`stakes, s`positions
    ensures s.Valid()
    ensures ev.meta.address !in old(s.gauges) ==> unchanged(s)
    ensures ev.meta.address in old(s.gauges) ==>
      var key := CLStake(ev.user, ev.meta.address, ev.tokenId);
      && s.gauges == old(s.gauges)[ev.meta.address := WithdrawnGauge(old(s.gauges)[ev.meta.address], Amount18(ev.amount))]
      && s.stakes == (if key in old(s.stakes)
                      then old(s.stakes)[key := MovedStake(old(s.stakes)[key], -Amount18(ev.amount), ev.meta.timestamp)]
                      else old(s.stakes))
      && s.positions == (if ev.tokenId in old(s.positions) && key in old(s.stakes)
                            && old(s.stakes)[key].amount - Amount18(ev.amount) <= 0.0
                         then old(s.positions)[ev.tokenId := old(s.positions)[ev.tokenId].(staked := false, stakedGauge := None)]
                         else old(s.positions))
  {
    var addr := ev.meta.address;
    if addr !in s.gauges {
      return;
    }
    var amount := Amount18(ev.amount);
    var key := CLStake(ev.user, addr, ev.tokenId);
    var found := key in s.stakes;
    var remaining := 0.0;
    if found {
      var p := MovedStake(s.stakes[key], -amount, ev.meta.timestamp);
      remaining := p.amount;
      s.stakes := s.stakes[key := p];
    }
    s.gauges := s.gauges[addr := WithdrawnGauge(s.gauges[addr], amount)];

    if ev.tokenId in s.positions && found && remaining <= 0.0 {
      s.positions := s.positions[ev.tokenId := s.positions[ev.tokenId].(staked := false, stakedGauge := None)];
    }
  }

  // ---------------------------------------------------------------- claims

  /** A claim adds to `earned`, which is cumulative and never reset. */
  function ClaimedStake(p: GaugeStakedPosition, claimed: real, ts: int): (q: GaugeStakedPosition)
    ensures q.earned == p.earned + claimed
    ensures claimed >= 0.0 ==> q.earned >= p.earned
    ensures q.lastUpdateTimestamp == ts
    ensures q.(earned := p.earned, lastUpdateTimestamp := p.lastUpdateTimestamp) == p
  {
    p.(earned := p.earned + claimed, lastUpdateTimestamp := ts)
  }

  function ProfileOrNew(profiles: map<Address, UserProfile>, user: Address, ts: int): (p: UserProfile)
    ensures user in profiles ==> p == profiles[user]
    ensures user !in profiles ==>
      && p.user == user && p.totalRewardsClaimedUSD == 0.0 && p.totalPositionsValueUSD == 0.0
      && p.totalStakedValueUSD == 0.0 && p.totalVeNFTValueUSD == 0.0 && p.totalFeesEarnedUSD == 0.0
      && p.totalSwaps == 0 && p.totalProvides == 0 && p.totalWithdraws == 0
      && p.firstActivityTimestamp == ts && p.lastActivityTimestamp == ts
  {
    if user in profiles then profiles[user]
    else UserProfile(user, 0.0, 0.0, 0.0, 0.0, 0.0, 0, 0, 0, ts, ts)
  }

  /**
   * The profiles after a claim: with a positive reward-token price the claimer's
   * `totalRewardsClaimedUSD` grows by amount * price; otherwise nothing changes.
   */
  function ProfilesAfterClaim(profiles: map<Address, UserProfile>, user: Address, claimed: real, ethPrice: real, ts: int)
    : (r: map<Address, UserProfile>)
    ensures ethPrice <= 0.0 ==> r == profiles
    ensures ethPrice > 0.0 ==>
      var p := ProfileOrNew(profiles, user, ts);
      && user in r && r == profiles[user := r[user]]
      && r[user].totalRewardsClaimedUSD == p.totalRewardsClaimedUSD + claimed * ethPrice
      && r[user].lastActivityTimestamp == ts
      && r[user].(totalRewardsClaimedUSD := p.totalRewardsClaimedUSD, lastActivityTimestamp := p.lastActivityTimestamp) == p
  {
    if ethPrice <= 0.0 then profiles
    else
      var p := ProfileOrNew(profiles, user, ts);
      profiles[user := p.(totalRewardsClaimedUSD := p.totalRewardsClaimedUSD + claimed * ethPrice, lastActivityTimestamp := ts)]
  }

  /** `handleClaimed` (V2): no-op for an unknown gauge; otherwise credits `earned` and the USD profile. */
  method HandleClaimed(s: Store, ev: ClaimEvent)
    requires s.Valid()
    modifies s`stakes, s`bundle, s`profiles
    ensures s.Valid()
    ensures ev.meta.address !in s.gauges ==> unchanged(s)
    ensures ev.meta.address in s.gauges ==>
      var key := V2Stake(ev.from, ev.meta.address);
      && s.stakes == (if key in old(s.stakes)
                      then old(s.stakes)[key := ClaimedStake(old(s.stakes)[key], Amount18(ev.amount), ev.meta.timestamp)]
                      else old(s.stakes))
      && s.bundle == Some(BundleOrNew(old(s.bundle)))
      && s.profiles == ProfilesAfterClaim(old(s.profiles), ev.from, Amount18(ev.amount),
                                          BundleOrNew(old(s.bundle)).ethPrice, ev.meta.timestamp)
  {
    var addr := ev.meta.address;
    if addr !in s.gauges {
      return;
    }
    var claimed := Amount18(ev.amount);
    var key := V2Stake(ev.from, addr);
    if key in s.stakes {
      s.stakes := s.stakes[key := ClaimedStake(s.stakes[key], claimed, ev.meta.timestamp)];
    }
    var bundle := s.GetOrCreateBundle();
    s.profiles := ProfilesAfterClaim(s.profiles, ev.from, claimed, bundle.ethPrice, ev.meta.timestamp);
  }

  /** 256^n */
  function Pow256(n: nat): (r: nat)
    ensures r > 0
  {
    if n == 0 then 1 else 256 * Pow256(n - 1)
  }

  /** The unsigned big-endian value of a byte string (the ABI encoding of a uint). */
  function BigEndian(b: seq<Byte>): (v: nat)
    ensures v < Pow256(|b|)
  {
    if |b| == 0 then 0 else BigEndian(b[..|b| - 1]) * 256 + b[|b| - 1]
  }

  /** `BigInt.fromUnsignedBytes`: the unsigned little-endian value of a byte string. */
  function LittleEndian(b: seq<Byte>): nat
  {
    if |b| == 0 then 0 else b[0] + 256 * LittleEndian(b[1..])
  }

  /** `Bytes.reverse()` */
  function Reverse(b: seq<Byte>): (r: seq<Byte>)
    ensures |r| == |b|
  {
    if |b| == 0 then [] else [b[|b| - 1]] + Reverse(b[..|b| - 1])
  }

  /** Reversing and reading little-endian is reading big-endian. */
  lemma {:induction false} LittleEndianOfReverse(b: seq<Byte>)
    ensures LittleEndian(Reverse(b)) == BigEndian(b)
  {
    if |b| > 0 {
      var r := Reverse(b);
      assert r[1..] == Reverse(b[..|b| - 1]);
      LittleEndianOfReverse(b[..|b| - 1]);
    }
  }

  /** The `width`-byte big-endian encoding of `n` modulo 256^width. */
  function EncodeBigEndian(n: nat, width: nat): (b: seq<Byte>)
    ensures |b| == width
  {
    if width == 0 then [] else EncodeBigEndian(n / 256, width - 1) + [n % 256]
  }

  /** Decoding inverts encoding for every value that fits. */
  lemma {:induction false} BigEndianRoundTrip(n: nat, width: nat)
    requires n < Pow256(width)
    ensures BigEndian(EncodeBigEndian(n, width)) == n
  {
    if width > 0 {
      var e := EncodeBigEndian(n, width);
      assert e[..width - 1] == EncodeBigEndian(n / 256, width - 1);
      assert n / 256 < Pow256(width - 1) by {
        DivBound(n, Pow256(width - 1));
      }
      BigEndianRoundTrip(n / 256, width - 1);
    }
  }

  lemma DivBound(n: nat, p: nat)
    requires p > 0 && n < 256 * p
    ensures n / 256 < p
  {
  }

  /** The token id of a `getReward(uint256)` call: the 32 bytes after the 4-byte selector, big-endian. */
  function TokenIdFromInput(input: seq<Byte>): (r: Option<nat>)
    ensures r.Some? <==> |input| >= 36
  {
    if |input| >= 36 then Some(BigEndian(input[4..36])) else None
  }

  /** The decoded token id is the uint256 argument the call was ABI-encoded with. */
  lemma TokenIdFromAbiCall(selector: seq<Byte>, tokenId: nat, rest: seq<Byte>)
    requires |selector| == 4 && tokenId < Pow256(32)
    ensures TokenIdFromInput(selector + EncodeBigEndian(tokenId, 32) + rest) == Some(tokenId)
  {
    var input := selector + EncodeBigEndian(tokenId, 32) + rest;
    assert input[4..36] == EncodeBigEndian(tokenId, 32);
    BigEndianRoundTrip(tokenId, 32);
  }

  /** The CL claim's decode: copies input bytes 4..35 one by one, reverses them, reads them little-endian. */
  method DecodeTokenId(input: seq<Byte>) returns (tokenId: Option<nat>)
    ensures tokenId == TokenIdFromInput(input)
  {
    if |input| < 36 {
      return None;
    }
    var tokenIdBytes := new Byte[32](_ => 0);
    for i := 0 to 32
      invariant forall j :: 0 <= j < i ==> tokenIdBytes[j] == input[4 + j]
    {
      tokenIdBytes[i] := input[4 + i];
    }
    assert tokenIdBytes[..] == input[4..36];
    LittleEndianOfReverse(tokenIdBytes[..]);
    return Some(LittleEndian(Reverse(tokenIdBytes[..])));
  }

  /**
   * `handleCLClaimed`: no-op for an unknown gauge; credits the staked record of
   * the decoded token id (when the input carries one) and the USD profile.
   */
  method HandleCLClaimed(s: Store, ev: ClaimEvent)
    requires s.Valid()
    modifies s`stakes, s`bundle, s`profiles
    ensures s.Valid()
    ensures ev.meta.address !in s.gauges ==> unchanged(s)
    ensures ev.meta.address in s.gauges ==>
      var id := TokenIdFromInput(ev.meta.txInput);
      && s.stakes == (if id.Some? && CLStake(ev.from, ev.meta.address, id.value) in old(s.stakes)
                      then var key := CLStake(ev.from, ev.meta.address, id.value);
                           old(s.stakes)[key := ClaimedStake(old(s.stakes)[key], Amount18(ev.amount), ev.meta.timestamp)]
                      else old(s.stakes))
      && s.bundle == Some(BundleOrNew(old(s.bundle)))
      && s.profiles == ProfilesAfterClaim(old(s.profiles), ev.from, Amount18(ev.amount),
                                          BundleOrNew(old(s.bundle)).ethPrice, ev.meta.timestamp)
  {
    var addr := ev.meta.address;
    if addr !in s.gauges {
      return;
    }
    var claimed := Amount18(ev.amount);
    var id := DecodeTokenId(ev.meta.txInput);
    if id.Some? {
      var key := CLStake(ev.from, addr, id.value);
      if key in s.stakes {
        s.stakes := s.stakes[key := ClaimedStake(s.stakes[key], claimed, ev.meta.timestamp)];
      }
    }
    var bundle := s.GetOrCreateBundle();
    s.profiles := ProfilesAfterClaim(s.profiles, ev.from, claimed, bundle.ethPrice, ev.meta.timestamp);
  }

  // ---------------------------------------------------------------- rewards

  /** `getCurrentEpoch`: the protocol's epoch counter, 0 before the protocol exists. */
  function GetCurrentEpoch(protocol: Option<Protocol>): (epoch: int)
    ensures protocol.None? ==> epoch == 0
    ensures protocol.Some? ==> epoch == protocol.value.epochCount
  {
    if protocol.Some? then protocol.value.epochCount else 0
  }

  /** `getOrCreateGaugeEpochData`: the stored record for `gauge-epoch`, or a zeroed one. */
  function EpochDataOrNew(epochs: map<EpochKey, GaugeEpochData>, gauge: Address, epoch: int, ts: int): (d: GaugeEpochData)
    ensures EpochKey(gauge, epoch) in epochs ==> d == epochs[EpochKey(gauge, epoch)]
    ensures EpochKey(gauge, epoch) !in epochs ==>
      && d.gauge == gauge && d.epoch == epoch && d.timestamp == ts && d.votingWeight == 0
      && d.feeRewardToken0 == 0.0 && d.feeRewardToken1 == 0.0 && d.totalBribes == 0.0 && d.emissions == 0.0
  {
    if EpochKey(gauge, epoch) in epochs then epochs[EpochKey(gauge, epoch)]
    else GaugeEpochData(gauge, epoch, 0, 0.0, 0.0, 0.0, 0.0, ts)
  }

  /** Division by a value the caller has shown to be positive. */
  function Div(a: real, b: real): real
    requires b > 0.0
  {
    a / b
  }

  /** The USD branch of the APR applies: pool and both tokens known, a positive price and TVL, and for V2 something staked. */
  predicate UsdAprApplies(g: Gauge, pools: map<Address, Pool>, tokens: map<Address, Token>, ethPrice: real)
  {
    && g.pool in pools
    && pools[g.pool].token0 in tokens && pools[g.pool].token1 in tokens
    && ethPrice > 0.0
    && pools[g.pool].totalValueLockedUSD > 0.0
    && (g.gaugeType == V2 ==> g.totalStaked > 0.0)
  }

  /**
   * `calculateUSDBasedAPR`. Every division is by a value checked positive first.
   * The USD figure is rewards-per-year in USD over pool TVL; every other path
   * falls back to rewards-per-year over `totalStaked`, or 0 with nothing staked.
   */
  function CalculateUSDBasedAPR(g: Gauge, rate: real, pools: map<Address, Pool>, tokens: map<Address, Token>, ethPrice: real)
    : (apr: real)
    ensures UsdAprApplies(g, pools, tokens, ethPrice) ==>
      apr == rate * (SECONDS_PER_YEAR as real) * ethPrice / pools[g.pool].totalValueLockedUSD * 100.0
    ensures !UsdAprApplies(g, pools, tokens, ethPrice) ==>
      apr == (if g.totalStaked > 0.0 then rate * (SECONDS_PER_YEAR as real) / g.totalStaked * 100.0 else 0.0)
    ensures rate >= 0.0 ==> apr >= 0.0
  {
    var year := SECONDS_PER_YEAR as real;
    if g.pool !in pools || pools[g.pool].token0 !in tokens || pools[g.pool].token1 !in tokens then
      if g.totalStaked > 0.0 then Div(rate * year, g.totalStaked) * 100.0 else 0.0
    else
      var pool := pools[g.pool];
      var yearlyRewards := rate * year;
      if ethPrice <= 0.0 then
        if g.totalStaked > 0.0 then Div(yearlyRewards, g.totalStaked) * 100.0 else 0.0
      else
        var yearlyRewardsUSD := yearlyRewards * ethPrice;
        var stakedValueUSD :=
          if g.gaugeType == V2 then
            (if pool.totalValueLockedUSD > 0.0 && g.totalStaked > 0.0 then pool.totalValueLockedUSD else 0.0)
          else
            (if pool.totalValueLockedUSD > 0.0 then pool.totalValueLockedUSD else 0.0);
        if stakedValueUSD > 0.0 then Div(yearlyRewardsUSD, stakedValueUSD) * 100.0
        else if g.totalStaked > 0.0 then Div(yearlyRewards, g.totalStaked) * 100.0
        else 0.0
  }

  /** The gauge after NotifyReward, with `apr` the APR computed for the new rate. */
  function NotifiedGauge(g: Gauge, amount: nat, ts: int, apr: real): (h: Gauge)
    ensures h.currentRewardRate == Amount18(amount) / (SECONDS_PER_WEEK as real)
    ensures h.lastUpdateTime == ts && h.periodFinish == ts + SECONDS_PER_WEEK
    ensures h.totalRewardsDistributed == g.totalRewardsDistributed + Amount18(amount)
    ensures h.estimatedAPR == apr
    ensures h.totalSupply == g.totalSupply && h.totalStaked == g.totalStaked && h.investorCount == g.investorCount
    ensures h.(currentRewardRate := g.currentRewardRate, rewardRate := g.rewardRate, lastUpdateTime := g.lastUpdateTime,
               periodFinish := g.periodFinish, estimatedAPR := g.estimatedAPR,
               totalRewardsDistributed := g.totalRewardsDistributed) == g
  {
    var reward := Amount18(amount);
    var rate := reward / (SECONDS_PER_WEEK as real);
    g.(currentRewardRate := rate,
       rewardRate := (rate * 1000000000000000000.0).Floor,
       lastUpdateTime := ts,
       periodFinish := ts + SECONDS_PER_WEEK,
       estimatedAPR := apr,
       totalRewardsDistributed := g.totalRewardsDistributed + reward)
  }

  /** The integer reward rate is the raw amount per second of the week, rounded down. */
  lemma RewardRateIsWeiPerSecond(g: Gauge, amount: nat, ts: int, apr: real)
    ensures NotifiedGauge(g, amount, ts, apr).rewardRate == amount / SECONDS_PER_WEEK
  {
    var rate := Amount18(amount) / (SECONDS_PER_WEEK as real);
    var x := rate * 1000000000000000000.0;
    assert x == amount as real / (SECONDS_PER_WEEK as real);
    var q, r := amount / SECONDS_PER_WEEK, amount % SECONDS_PER_WEEK;
    assert amount as real == q as real * (SECONDS_PER_WEEK as real) + r as real;
    assert q as real <= x < q as real + 1.0;
  }

  /**
   * `handleRewardAdded`: no-op for an
   * unknown gauge; otherwise updates the rate, period and APR, counts the reward,
   * and adds it to the emissions of the current epoch's record, creating it if needed.
   * The APR lookup creates the bundle when it is missing.
   */
  method HandleRewardAdded(s: Store, ev: NotifyEvent)
    requires s.Valid()
    modifies s`gauges, s`epochs, s`bundle
    ensures s.Valid()
    ensures ev.meta.address !in old(s.gauges) ==> unchanged(s)
    ensures ev.meta.address in old(s.gauges) ==>
      var g := old(s.gauges)[ev.meta.address];
      var rate := Amount18(ev.amount) / (SECONDS_PER_WEEK as real);
      var apr := CalculateUSDBasedAPR(g, rate, s.pools, s.tokens, BundleOrNew(old(s.bundle)).ethPrice);
      var epoch := GetCurrentEpoch(s.protocol);
      var data := EpochDataOrNew(old(s.epochs), ev.meta.address, epoch, ev.meta.timestamp);
      && s.bundle == Some(BundleOrNew(old(s.bundle)))
      && s.gauges == old(s.gauges)[ev.meta.address := NotifiedGauge(g, ev.amount, ev.meta.timestamp, apr)]
      && s.epochs == old(s.epochs)[EpochKey(ev.meta.address, epoch) := data.(emissions := data.emissions + Amount18(ev.amount))]
  {
    var addr := ev.meta.address;
    if addr !in s.gauges {
      return;
    }
    var g := s.gauges[addr];
    var reward := Amount18(ev.amount);
    var rate := reward / (SECONDS_PER_WEEK as real);
    var bundle := s.GetOrCreateBundle();
    var apr := CalculateUSDBasedAPR(g, rate, s.pools, s.tokens, bundle.ethPrice);
    var epoch := GetCurrentEpoch(s.protocol);
    var data := EpochDataOrNew(s.epochs, addr, epoch, ev.meta.timestamp);
    s.epochs := s.epochs[EpochKey(addr, epoch) := data.(emissions := data.emissions + reward)];
    s.gauges := s.gauges[addr := NotifiedGauge(g, ev.amount, ev.meta.timestamp, apr)];
  }

  /** `handleCLRewardAdded`: the same body as the V2 handler. */
  method HandleCLRewardAdded(s: Store, ev: NotifyEvent)
    requires s.Valid()
    modifies s`gauges, s`epochs, s`bundle
    ensures s.Valid()
    ensures ev.meta.address !in old(s.gauges) ==> unchanged(s)
    ensures ev.meta.address in old(s.gauges) ==>
      var g := old(s.gauges)[ev.meta.address];
      var rate := Amount18(ev.amount) / (SECONDS_PER_WEEK as real);
      var apr := CalculateUSDBasedAPR(g, rate, s.pools, s.tokens, BundleOrNew(old(s.bundle)).ethPrice);
      var epoch := GetCurrentEpoch(s.protocol);
      var data := EpochDataOrNew(old(s.epochs), ev.meta.address, epoch, ev.meta.timestamp);
      && s.bundle == Some(BundleOrNew(old(s.bundle)))
      && s.gauges == old(s.gauges)[ev.meta.address := NotifiedGauge(g, ev.amount, ev.meta.timestamp, apr)]
      && s.epochs == old(s.epochs)[EpochKey(ev.meta.address, epoch) := data.(emissions := data.emissions + Amount18(ev.amount))]
  {
    HandleRewardAdded(s, ev);
  }
}
