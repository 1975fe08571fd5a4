/**
 * The rewards distributor (src/rewards-distributor.ts): rebase claims of a
 * veNFT, accumulated on its rewards record and on the veNFT itself.
 */
module RewardsDistributor {
  import opened Helpers
  import opened Schema
  import opened EntityStore

  /** `Claimed(tokenId, epochStart, epochEnd, amount)`, fields used by the handler. */
  datatype ClaimedEvent = ClaimedEvent(meta: EventMeta, tokenId: nat, amount: nat)

  /** `VeNFTRewards` as first created: every total zero, never claimed. */
  function NewRewards(tokenId: int): (r: VeNFTRewards)
    ensures r.veNFT == tokenId && r.claimable == 0.0 && r.claimed == 0.0
    ensures r.rebases == 0.0 && r.incentives == 0.0 && r.lastClaimTimestamp == 0
  {
    VeNFTRewards(tokenId, 0.0, 0.0, 0.0, 0.0, 0)
  }

  function RewardsOrNew(rewards: map<int, VeNFTRewards>, tokenId: int): (r: VeNFTRewards)
    ensures tokenId in rewards ==> r == rewards[tokenId]
    ensures tokenId !in rewards ==> r == NewRewards(tokenId)
  {
    if tokenId in rewards then rewards[tokenId] else NewRewards(tokenId)
  }

  /**
   * A claim moves `claimed` amount from claimable to claimed, so the two
   * together stay the same, and stamps the claim time.
   */
  function ClaimedRewards(r: VeNFTRewards, claimed: real, ts: int): (q: VeNFTRewards)
    ensures q.claimed == r.claimed + claimed
    ensures q.claimed + q.claimable == r.claimed + r.claimable
    ensures q.lastClaimTimestamp == ts
    ensures q.(claimed := r.claimed, claimable := r.claimable, lastClaimTimestamp := r.lastClaimTimestamp) == r
  {
    r.(claimed := r.claimed + claimed, claimable := r.claimable - claimed, lastClaimTimestamp := ts)
  }

  /** Two claims add up like one claim of the sum, stamped with the later time. */
  lemma ClaimsAccumulate(r: VeNFTRewards, a: real, b: real, t1: int, t2: int)
    ensures ClaimedRewards(ClaimedRewards(r, a, t1), b, t2) == ClaimedRewards(r, a + b, t2)
  {
  }

  /**
   * `handleVeNFTClaimed`: a no-op for an unknown veNFT; otherwise the claimed
   * amount (18 decimals) is added both to the rewards record, created if
   * needed, and to the veNFT's `totalClaimed`.
   */
  method HandleVeNFTClaimed(s: Store, ev: ClaimedEvent)
    requires s.Valid()
    modifies s`veRewards, s`veNFTs
    ensures s.Valid()
    ensures ev.tokenId !in old(s.veNFTs) ==> unchanged(s)
    ensures ev.tokenId in old(s.veNFTs) ==>
      var v := old(s.veNFTs)[ev.tokenId];
      var r := RewardsOrNew(old(s.veRewards), ev.tokenId);
      && s.veRewards == old(s.veRewards)[ev.tokenId := ClaimedRewards(r, Amount18(ev.amount), ev.meta.timestamp)]
      && s.veNFTs == old(s.veNFTs)[ev.tokenId := v.(totalClaimed := v.totalClaimed + Amount18(ev.amount))]
      && s.veRewards[ev.tokenId].claimed - r.claimed == s.veNFTs[ev.tokenId].totalClaimed - v.totalClaimed >= 0.0
  {
    if ev.tokenId !in s.veNFTs {
      return;
    }
    var v := s.veNFTs[ev.tokenId];
    var r := RewardsOrNew(s.veRewards, ev.tokenId);
    var claimed := Amount18(ev.amount);
    s.veRewards := s.veRewards[ev.tokenId := ClaimedRewards(r, claimed, ev.meta.timestamp)];
    s.veNFTs := s.veNFTs[ev.tokenId := v.(totalClaimed := v.totalClaimed + claimed)];
  }
}
