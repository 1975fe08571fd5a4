/**
 * The vote-escrow NFT (src/voting-escrow.ts): locks are created and topped up
 * by Deposit, zeroed by Withdraw, moved between owners by Transfer and made
 * permanent by LockPermanent. Each user's `totalVeNFTs` counts the veNFTs they
 * hold; contract reads (`ownerOf`, `locked`, `balanceOfNFT`) are parameters,
 * `None` when the call reverts.
 */
module VotingEscrow {
  import opened Helpers
  import opened Schema
  import opened EntityStore
  import MapSum

  /** `Deposit(provider, tokenId, depositType, value, locktime, ts)`, fields used by the handler. */
  datatype DepositEvent = DepositEvent(meta: EventMeta, tokenId: nat, value: nat, locktime: int)

  datatype TokenEvent = TokenEvent(meta: EventMeta, tokenId: nat)

  datatype TransferEvent = TransferEvent(meta: EventMeta, from: Address, to: Address, tokenId: nat)

  /** The result of `locked(tokenId)`: amount, end and permanence of the lock. */
  datatype LockedBalance = LockedBalance(amount: int, end: int, isPermanent: bool)

  /** A veNFT as Deposit first creates it, before the lock fields are filled in. */
  function NewVeNFT(tokenId: nat, owner: Address, ts: int): (v: VeNFT)
    ensures v.tokenId == tokenId && v.owner == owner && v.createdAtTimestamp == ts
    ensures !v.isPermanent && !v.hasVoted && v.lastVoted == 0
    ensures v.claimableRewards == 0.0 && v.totalClaimed == 0.0
  {
    VeNFT(tokenId, owner, 0.0, 0, false, 0.0, ts, 0.0, 0.0, 0, false)
  }

  /**
   * The lock fields after a Deposit: the locked amount is the event's value in
   * 18 decimals; end and permanence come from `locked` when it answers, else the
   * end is the event's locktime and permanence is kept; voting power is
   * `balanceOfNFT` when it answers, else the locked amount. Nothing else changes.
   */
  function DepositedVeNFT(v: VeNFT, value: nat, locktime: int, locked: Option<LockedBalance>, power: Option<nat>)
    : (w: VeNFT)
    ensures w.lockedAmount == Amount18(value) && w.lockedAmount >= 0.0
    ensures w.lockEnd == (if locked.Some? then locked.value.end else locktime)
    ensures w.isPermanent == (if locked.Some? then locked.value.isPermanent else v.isPermanent)
    ensures w.votingPower == (if power.Some? then Amount18(power.value) else w.lockedAmount)
    ensures w.votingPower >= 0.0
    ensures w.(lockedAmount := v.lockedAmount, lockEnd := v.lockEnd, isPermanent := v.isPermanent,
               votingPower := v.votingPower) == v
  {
    var amount := Amount18(value);
    var w := if locked.Some? then v.(lockedAmount := amount, lockEnd := locked.value.end, isPermanent := locked.value.isPermanent)
             else v.(lockedAmount := amount, lockEnd := locktime);
    w.(votingPower := if power.Some? then Amount18(power.value) else amount)
  }

  /**
   * The locked amount after a Deposit is the value of that one Deposit: an
   * earlier lock's amount and voting power do not carry over.
   */
  lemma DepositOverwritesLock(v: VeNFT, earlier: real, earlierPower: real, value: nat, locktime: int,
                              locked: Option<LockedBalance>, power: Option<nat>)
    ensures DepositedVeNFT(v.(lockedAmount := earlier, votingPower := earlierPower), value, locktime, locked, power)
         == DepositedVeNFT(v, value, locktime, locked, power)
  {
  }

  /**
   * `handleDeposit`: an existing veNFT gets new lock fields; a new one is only
   * saved when `ownerOf` answers, in which case the owner is registered and
   * their `totalVeNFTs` grows by one.
   */
  method HandleDeposit(s: Store, ev: DepositEvent, owner: Option<Address>, locked: Option<LockedBalance>, power: Option<nat>)
    requires s.Valid()
    modifies s`veNFTs, s`users
    ensures s.Valid()
    ensures ev.tokenId in old(s.veNFTs) ==>
      && s.users == old(s.users)
      && s.veNFTs == old(s.veNFTs)[ev.tokenId := DepositedVeNFT(old(s.veNFTs)[ev.tokenId], ev.value, ev.locktime, locked, power)]
    ensures ev.tokenId !in old(s.veNFTs) && owner.None? ==> unchanged(s)
    ensures ev.tokenId !in old(s.veNFTs) && owner.Some? ==>
      && s.users == Bumped(old(s.users), VeNFTsHeld, owner.value, 1)
      && s.veNFTs == old(s.veNFTs)[ev.tokenId :=
           DepositedVeNFT(NewVeNFT(ev.tokenId, owner.value, ev.meta.timestamp), ev.value, ev.locktime, locked, power)]
    ensures ev.tokenId !in old(s.veNFTs) && owner.Some? ==>
      MapSum.SumValues(Counts(s.users, VeNFTsHeld)) == MapSum.SumValues(Counts(old(s.users), VeNFTsHeld)) + 1
  {
    if ev.tokenId in s.veNFTs {
      var w := DepositedVeNFT(s.veNFTs[ev.tokenId], ev.value, ev.locktime, locked, power);
      VeNFTOwnersAfterPut(s.veNFTs, s.users, ev.tokenId, w);
      s.veNFTs := s.veNFTs[ev.tokenId := w];
    } else if owner.Some? {
      s.BumpCount(VeNFTsHeld, owner.value, 1);
      var w := DepositedVeNFT(NewVeNFT(ev.tokenId, owner.value, ev.meta.timestamp), ev.value, ev.locktime, locked, power);
      VeNFTOwnersAfterPut(s.veNFTs, s.users, ev.tokenId, w);
      s.veNFTs := s.veNFTs[ev.tokenId := w];
    }
  }

  /** The veNFT after Withdraw: lock amount and voting power are zeroed, the record is kept. */
  function WithdrawnVeNFT(v: VeNFT): (w: VeNFT)
    ensures w.lockedAmount == 0.0 && w.votingPower == 0.0
    ensures w.(lockedAmount := v.lockedAmount, votingPower := v.votingPower) == v
  {
    v.(lockedAmount := 0.0, votingPower := 0.0)
  }

  /**
   * `handleWithdraw`: a no-op for an unknown veNFT; otherwise the stored owner,
   * if any, holds one veNFT fewer and the lock is zeroed.
   */
  method HandleWithdraw(s: Store, ev: TokenEvent)
    requires s.Valid()
    modifies s`veNFTs, s`users
    ensures s.Valid()
    ensures ev.tokenId !in old(s.veNFTs) ==> unchanged(s)
    ensures ev.tokenId in old(s.veNFTs) ==>
      var v := old(s.veNFTs)[ev.tokenId];
      && s.users == (if v.owner in old(s.users) then Bumped(old(s.users), VeNFTsHeld, v.owner, -1) else old(s.users))
      && s.veNFTs == old(s.veNFTs)[ev.tokenId := WithdrawnVeNFT(v)]
    ensures ev.tokenId in old(s.veNFTs) ==>
      MapSum.SumValues(Counts(s.users, VeNFTsHeld)) == MapSum.SumValues(Counts(old(s.users), VeNFTsHeld)) - 1
  {
    if ev.tokenId !in s.veNFTs {
      return;
    }
    var v := s.veNFTs[ev.tokenId];
    if v.owner in s.users {
      s.BumpCount(VeNFTsHeld, v.owner, -1);
    }
    var w := WithdrawnVeNFT(v);
    VeNFTOwnersAfterPut(s.veNFTs, s.users, ev.tokenId, w);
    s.veNFTs := s.veNFTs[ev.tokenId := w];
  }

  /**
   * `handleVeTransfer`: skips mints, burns and unknown veNFTs; otherwise moves
   * one veNFT from the recorded owner to the recipient. The total of
   * `totalVeNFTs` over all users is unchanged.
   */
  method HandleVeTransfer(s: Store, ev: TransferEvent)
    requires s.Valid()
    modifies s`veNFTs, s`users
    ensures s.Valid()
    ensures ev.from == ZERO_ADDRESS || ev.to == ZERO_ADDRESS || ev.tokenId !in old(s.veNFTs) ==> unchanged(s)
    ensures ev.from != ZERO_ADDRESS && ev.to != ZERO_ADDRESS && ev.tokenId in old(s.veNFTs) ==>
      var v := old(s.veNFTs)[ev.tokenId];
      && s.users == MoveOne(old(s.users), VeNFTsHeld, v.owner, ev.to)
      && s.veNFTs == old(s.veNFTs)[ev.tokenId := v.(owner := ev.to)]
    ensures MapSum.SumValues(Counts(s.users, VeNFTsHeld)) == MapSum.SumValues(Counts(old(s.users), VeNFTsHeld))
  {
    if ev.from == ZERO_ADDRESS || ev.to == ZERO_ADDRESS {
      return;
    }
    if ev.tokenId !in s.veNFTs {
      return;
    }
    var v := s.veNFTs[ev.tokenId];
    s.MoveCount(VeNFTsHeld, v.owner, ev.to);
    VeNFTOwnersAfterPut(s.veNFTs, s.users, ev.tokenId, v.(owner := ev.to));
    s.veNFTs := s.veNFTs[ev.tokenId := v.(owner := ev.to)];
  }

  /** The veNFT after LockPermanent: permanent, with no end. */
  function PermanentVeNFT(v: VeNFT): (w: VeNFT)
    ensures w.isPermanent && w.lockEnd == 0
    ensures w.(isPermanent := v.isPermanent, lockEnd := v.lockEnd) == v
  {
    v.(isPermanent := true, lockEnd := 0)
  }

  /** Making a lock permanent twice is the same as once. */
  lemma LockPermanentIdempotent(v: VeNFT)
    ensures PermanentVeNFT(PermanentVeNFT(v)) == PermanentVeNFT(v)
  {
  }

  /** `handleLockPermanent`: a no-op for an unknown veNFT. */
  method HandleLockPermanent(s: Store, ev: TokenEvent)
    requires s.Valid()
    modifies s`veNFTs
    ensures s.Valid()
    ensures ev.tokenId !in old(s.veNFTs) ==> unchanged(s)
    ensures ev.tokenId in old(s.veNFTs) ==> s.veNFTs == old(s.veNFTs)[ev.tokenId := PermanentVeNFT(old(s.veNFTs)[ev.tokenId])]
  {
    if ev.tokenId !in s.veNFTs {
      return;
    }
    s.veNFTs := s.veNFTs[ev.tokenId := PermanentVeNFT(s.veNFTs[ev.tokenId])];
  }
}
