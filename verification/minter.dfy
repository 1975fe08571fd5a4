/**
 * The minter (src/minter.ts): each weekly emission Mint starts a new epoch on
 * the protocol record, which is where gauges and voting rewards read the
 * current epoch from.
 */
module Minter {
  import opened Helpers
  import opened Schema
  import opened EntityStore
  import Gauges

  /** A `Mint` event; the handler uses only its `timestamp` parameter, the start of the new period. */
  datatype MintEvent = MintEvent(meta: EventMeta, timestamp: int)

  /**
   * The protocol after a Mint: the period is the event's; the epoch counter
   * grows by one, starting from 1 when the record is created here (without
   * governance settings, which are left unset).
   */
  function MintedProtocol(protocol: Option<Protocol>, ev: MintEvent): (p: Protocol)
    ensures p.activePeriod == ev.timestamp
    ensures protocol.Some? ==> p.epochCount == protocol.value.epochCount + 1
    ensures protocol.Some? ==> p.(epochCount := protocol.value.epochCount, activePeriod := protocol.value.activePeriod) == protocol.value
    ensures protocol.None? ==>
      && p.epochCount == 2 && p.totalPools == 0 && p.totalSwaps == 0
      && p.totalVolumeUSD == 0.0 && p.totalTVLUSD == 0.0
      && p.proposalThreshold.None? && p.votingDelay.None? && p.votingPeriod.None?
  {
    var base := if protocol.Some? then protocol.value
                else Protocol(0.0, 0.0, 0, 0, ev.meta.timestamp, 1, None, None, None);
    base.(activePeriod := ev.timestamp, epochCount := base.epochCount + 1)
  }

  /** The current epoch seen by the other handlers advances by one per Mint, except that the first Mint with no protocol record jumps from 0 to 2. */
  lemma MintAdvancesEpoch(protocol: Option<Protocol>, ev: MintEvent)
    ensures Gauges.GetCurrentEpoch(Some(MintedProtocol(protocol, ev)))
         == Gauges.GetCurrentEpoch(protocol) + (if protocol.Some? then 1 else 2)
  {
  }

  /** `handleMint`: saves the advanced protocol record. */
  method HandleMint(s: Store, ev: MintEvent)
    requires s.Valid()
    modifies s`protocol
    ensures s.Valid()
    ensures s.protocol == Some(MintedProtocol(old(s.protocol), ev))
  {
    var p: Protocol;
    if s.protocol.Some? {
      p := s.protocol.value;
    } else {
      p := Protocol(0.0, 0.0, 0, 0, ev.meta.timestamp, 1, None, None, None);
    }
    p := p.(activePeriod := ev.timestamp, epochCount := p.epochCount + 1);
    s.protocol := Some(p);
  }
}
