/**
 * Voting-reward contracts (src/voting-reward.ts): fee and bribe rewards paid to
 * voters, recorded as claims and folded into the gauge's per-epoch record.
 * Which gauge and pool a reward contract pays for is read from its
 * `VotingRewardSource` record.
 */
module VotingRewards {
  import opened Helpers
  import opened Schema
  import opened EntityStore
  import opened Gauges

  /** `ClaimRewards(recipient, token, amount)` */
  datatype ClaimRewardsEvent = ClaimRewardsEvent(meta: EventMeta, recipient: Address, token: Address, amount: nat)

  /** `NotifyReward(from, token, epoch, amount)` */
  datatype NotifyRewardEvent = NotifyRewardEvent(meta: EventMeta, from: Address, token: Address, epoch: int, amount: nat)

  /** The USD value of a reward: amount times price when the token is priced, else zero. */
  function UsdValue(amount: real, priceUSD: real): (r: real)
    ensures priceUSD > 0.0 ==> r == amount * priceUSD
    ensures priceUSD <= 0.0 ==> r == 0.0
    ensures amount >= 0.0 ==> r >= 0.0
  {
    if priceUSD > 0.0 then amount * priceUSD else 0.0
  }

  /**
   * An epoch record after a fee or bribe reward: a fee with a known pool goes to
   * the fee total of whichever pool token it is paid in (none if neither), a bribe
   * adds its USD value to `totalBribes`, anything else leaves the record alone.
   */
  function CreditedEpoch(d: GaugeEpochData, rewardType: string, token: Address, pool: Option<Pool>,
                         amount: real, amountUSD: real): (e: GaugeEpochData)
    ensures e.(feeRewardToken0 := d.feeRewardToken0, feeRewardToken1 := d.feeRewardToken1, totalBribes := d.totalBribes) == d
    ensures rewardType == "fee" && pool.Some? ==>
      && e.totalBribes == d.totalBribes
      && e.feeRewardToken0 + e.feeRewardToken1 == d.feeRewardToken0 + d.feeRewardToken1
           + (if token == pool.value.token0 || token == pool.value.token1 then amount else 0.0)
      && (token == pool.value.token0 ==> e.feeRewardToken0 == d.feeRewardToken0 + amount)
      && (token != pool.value.token0 ==> e.feeRewardToken0 == d.feeRewardToken0)
    ensures rewardType == "bribe" ==>
      e.totalBribes == d.totalBribes + amountUSD
      && e.feeRewardToken0 == d.feeRewardToken0 && e.feeRewardToken1 == d.feeRewardToken1
    ensures rewardType != "bribe" && (rewardType != "fee" || pool.None?) ==> e == d
  {
    if rewardType == "fee" && pool.Some? then
      if token == pool.value.token0 then d.(feeRewardToken0 := d.feeRewardToken0 + amount)
      else if token == pool.value.token1 then d.(feeRewardToken1 := d.feeRewardToken1 + amount)
      else d
    else if rewardType == "bribe" then d.(totalBribes := d.totalBribes + amountUSD)
    else d
  }

  /** A reward of non-negative size never lowers any total of the epoch record. */
  lemma CreditNeverLowers(d: GaugeEpochData, rewardType: string, token: Address, pool: Option<Pool>,
                          amount: real, amountUSD: real)
    requires amount >= 0.0 && amountUSD >= 0.0
    ensures var e := CreditedEpoch(d, rewardType, token, pool, amount, amountUSD);
            e.feeRewardToken0 >= d.feeRewardToken0 && e.feeRewardToken1 >= d.feeRewardToken1
            && e.totalBribes >= d.totalBribes
  {
  }

  /** The claim's lookups all succeed: source, its gauge and pool, and the reward token. */
  predicate ClaimResolves(sources: map<Address, VotingRewardSource>, gauges: map<Address, Gauge>,
                          pools: map<Address, Pool>, tokens: map<Address, Token>, ev: ClaimRewardsEvent)
  {
    && ev.meta.address in sources
    && sources[ev.meta.address].gauge in gauges
    && sources[ev.meta.address].pool in pools
    && ev.token in tokens
  }

  /**
   * `handleClaimRewards`: a no-op unless every lookup succeeds and the amount is
   * non-zero; otherwise registers the recipient, records the claim under the
   * event key with the current epoch, and credits the current epoch's record of
   * the gauge, if that record already exists.
   */
  method HandleClaimRewards(s: Store, ev: ClaimRewardsEvent)
    requires s.Valid()
    modifies s`users, s`rewardClaims, s`epochs
    ensures s.Valid()
    ensures !ClaimResolves(s.rewardSources, s.gauges, s.pools, s.tokens, ev) || ev.amount == 0 ==> unchanged(s)
    ensures ClaimResolves(s.rewardSources, s.gauges, s.pools, s.tokens, ev) && ev.amount != 0 ==>
      var src := s.rewardSources[ev.meta.address];
      var token := s.tokens[ev.token];
      var amount := ConvertTokenToDecimal(ev.amount, token.decimals);
      var usd := UsdValue(amount, token.priceUSD);
      var epoch := GetCurrentEpoch(s.protocol);
      var key := EpochKey(src.gauge, epoch);
      && s.users == old(s.users)[ev.recipient := UserOrNew(old(s.users), ev.recipient)]
      && s.rewardClaims == old(s.rewardClaims)[KeyOf(ev.meta) :=
           VotingRewardClaim(ev.recipient, src.gauge, src.pool, src.rewardType, ev.token, amount, usd, epoch, ev.meta.timestamp)]
      && s.epochs == (if key in old(s.epochs)
                      then old(s.epochs)[key := CreditedEpoch(old(s.epochs)[key], src.rewardType, ev.token,
                                                              Some(s.pools[src.pool]), amount, usd)]
                      else old(s.epochs))
  {
    if ev.meta.address !in s.rewardSources {
      return;
    }
    var src := s.rewardSources[ev.meta.address];
    if src.gauge !in s.gauges || src.pool !in s.pools || ev.token !in s.tokens {
      return;
    }
    var pool := s.pools[src.pool];
    var token := s.tokens[ev.token];
    var amount := ConvertTokenToDecimal(ev.amount, token.decimals);
    ConvertTokenToDecimalSign(ev.amount, token.decimals);
    if amount == 0.0 {
      return;
    }
    var usd := UsdValue(amount, token.priceUSD);
    var _ := s.GetOrCreateUser(ev.recipient);
    var epoch := GetCurrentEpoch(s.protocol);
    s.rewardClaims := s.rewardClaims[KeyOf(ev.meta) :=
      VotingRewardClaim(ev.recipient, src.gauge, src.pool, src.rewardType, ev.token, amount, usd, epoch, ev.meta.timestamp)];
    var key := EpochKey(src.gauge, epoch);
    if key in s.epochs {
      s.epochs := s.epochs[key := CreditedEpoch(s.epochs[key], src.rewardType, ev.token, Some(pool), amount, usd)];
    }
  }

  /** The notification's lookups succeed: source, its gauge, and the reward token (the pool is optional). */
  predicate NotifyResolves(sources: map<Address, VotingRewardSource>, gauges: map<Address, Gauge>,
                           tokens: map<Address, Token>, ev: NotifyRewardEvent)
  {
    ev.meta.address in sources && sources[ev.meta.address].gauge in gauges && ev.token in tokens
  }

  /**
   * `handleNotifyReward`: a no-op unless source, gauge and token resolve;
   * otherwise the record for the event's own epoch is created if missing,
   * credited, and saved; a fee whose pool is unknown saves it uncredited.
   */
  method HandleNotifyReward(s: Store, ev: NotifyRewardEvent)
    requires s.Valid()
    modifies s`epochs
    ensures s.Valid()
    ensures !NotifyResolves(s.rewardSources, s.gauges, s.tokens, ev) ==> unchanged(s)
    ensures NotifyResolves(s.rewardSources, s.gauges, s.tokens, ev) ==>
      var src := s.rewardSources[ev.meta.address];
      var token := s.tokens[ev.token];
      var amount := ConvertTokenToDecimal(ev.amount, token.decimals);
      var d := EpochDataOrNew(old(s.epochs), src.gauge, ev.epoch, ev.meta.timestamp);
      var pool := if src.pool in s.pools then Some(s.pools[src.pool]) else None;
      s.epochs == old(s.epochs)[EpochKey(src.gauge, ev.epoch) :=
                    CreditedEpoch(d, src.rewardType, ev.token, pool, amount, UsdValue(amount, token.priceUSD))]
  {
    if ev.meta.address !in s.rewardSources {
      return;
    }
    var src := s.rewardSources[ev.meta.address];
    if src.gauge !in s.gauges || ev.token !in s.tokens {
      return;
    }
    var token := s.tokens[ev.token];
    var amount := ConvertTokenToDecimal(ev.amount, token.decimals);
    var usd := UsdValue(amount, token.priceUSD);
    var d := EpochDataOrNew(s.epochs, src.gauge, ev.epoch, ev.meta.timestamp);
    var pool := if src.pool in s.pools then Some(s.pools[src.pool]) else None;
    s.epochs := s.epochs[EpochKey(src.gauge, ev.epoch) := CreditedEpoch(d, src.rewardType, ev.token, pool, amount, usd)];
  }
}
