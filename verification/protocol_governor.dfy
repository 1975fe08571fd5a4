/**
 * The protocol governor (src/protocol-governor.ts): proposals with their vote
 * tallies and lifecycle state, and one vote record per (proposal, voter, veNFT).
 * States use the governor's numbering: 0 Pending, 1 Active, 2 Canceled, 7 Executed.
 */
module ProtocolGovernor {
  import opened Helpers
  import opened Schema
  import opened EntityStore

  const PENDING: int := 0
  const ACTIVE: int := 1
  const CANCELED: int := 2
  const EXECUTED: int := 7

  /** `support` values of a vote. */
  const AGAINST: int := 0
  const FOR: int := 1
  const ABSTAIN: int := 2

  datatype ProposalCreatedEvent = ProposalCreatedEvent(
    meta: EventMeta,
    proposalId: nat,
    proposer: Address,
    targets: seq<Address>,
    values: seq<int>,
    calldatas: seq<seq<Byte>>,
    description: string,
    voteStart: int,
    voteEnd: int)

  datatype ProposalEvent = ProposalEvent(meta: EventMeta, proposalId: nat)

  datatype VoteCastEvent = VoteCastEvent(meta: EventMeta, voter: Address, proposalId: nat, tokenId: nat, support: int, weight: nat)

  /** The element-by-element copy of an event array into a fresh entity array. */
  method CopyAll<T>(src: seq<T>) returns (dst: seq<T>)
    ensures dst == src
  {
    dst := [];
    var i := 0;
    while i < |src|
      invariant 0 <= i <= |src|
      invariant dst == src[..i]
    {
      dst := dst + [src[i]];
      i := i + 1;
    }
  }

  /** A proposal as created: the event's fields, no votes, Pending, neither executed nor canceled. */
  function NewProposal(ev: ProposalCreatedEvent): (p: Proposal)
    ensures p.proposalId == ev.proposalId && p.proposer == ev.proposer
    ensures p.targets == ev.targets && p.values == ev.values && p.calldatas == ev.calldatas
    ensures p.voteStart == ev.voteStart && p.voteEnd == ev.voteEnd && p.description == ev.description
    ensures p.createdAtTimestamp == ev.meta.timestamp && p.createdAtBlockNumber == ev.meta.blockNumber
    ensures p.forVotes == 0 && p.againstVotes == 0 && p.abstainVotes == 0
    ensures p.state == PENDING && !p.executed && !p.canceled && p.executedAtTimestamp.None?
  {
    Proposal(ev.proposalId, ev.proposer, ev.targets, ev.values, ev.calldatas, ev.description,
             ev.voteStart, ev.voteEnd, 0, 0, 0, PENDING, false, false,
             ev.meta.timestamp, ev.meta.blockNumber, None)
  }

  /** `handleProposalCreated`: writes the new proposal (replacing any record under the same id). */
  method HandleProposalCreated(s: Store, ev: ProposalCreatedEvent)
    requires s.Valid()
    modifies s`proposals
    ensures s.Valid()
    ensures s.proposals == old(s.proposals)[ev.proposalId := NewProposal(ev)]
  {
    var targets := CopyAll(ev.targets);
    var values := CopyAll(ev.values);
    var calldatas := CopyAll(ev.calldatas);
    var p := Proposal(ev.proposalId, ev.proposer, targets, values, calldatas, ev.description,
                      ev.voteStart, ev.voteEnd, 0, 0, 0, PENDING, false, false,
                      ev.meta.timestamp, ev.meta.blockNumber, None);
    s.proposals := s.proposals[ev.proposalId := p];
  }

  function CanceledProposal(p: Proposal): (q: Proposal)
    ensures q.canceled && q.state == CANCELED
    ensures q.(canceled := p.canceled, state := p.state) == p
  {
    p.(canceled := true, state := CANCELED)
  }

  function ExecutedProposal(p: Proposal, ts: int): (q: Proposal)
    ensures q.executed && q.state == EXECUTED && q.executedAtTimestamp == Some(ts)
    ensures q.(executed := p.executed, state := p.state, executedAtTimestamp := p.executedAtTimestamp) == p
  {
    p.(executed := true, state := EXECUTED, executedAtTimestamp := Some(ts))
  }

  /** `handleProposalCanceled`: a no-op for an unknown proposal. */
  method HandleProposalCanceled(s: Store, ev: ProposalEvent)
    requires s.Valid()
    modifies s`proposals
    ensures s.Valid()
    ensures ev.proposalId !in old(s.proposals) ==> unchanged(s)
    ensures ev.proposalId in old(s.proposals) ==>
      s.proposals == old(s.proposals)[ev.proposalId := CanceledProposal(old(s.proposals)[ev.proposalId])]
  {
    if ev.proposalId in s.proposals {
      s.proposals := s.proposals[ev.proposalId := CanceledProposal(s.proposals[ev.proposalId])];
    }
  }

  /** `handleProposalExecuted`: a no-op for an unknown proposal. */
  method HandleProposalExecuted(s: Store, ev: ProposalEvent)
    requires s.Valid()
    modifies s`proposals
    ensures s.Valid()
    ensures ev.proposalId !in old(s.proposals) ==> unchanged(s)
    ensures ev.proposalId in old(s.proposals) ==>
      s.proposals == old(s.proposals)[ev.proposalId := ExecutedProposal(old(s.proposals)[ev.proposalId], ev.meta.timestamp)]
  {
    if ev.proposalId in s.proposals {
      s.proposals := s.proposals[ev.proposalId := ExecutedProposal(s.proposals[ev.proposalId], ev.meta.timestamp)];
    }
  }

  /** The sum of the three tallies. */
  function TotalVotes(p: Proposal): int
  {
    p.forVotes + p.againstVotes + p.abstainVotes
  }

  /**
   * A proposal after a vote: the weight goes to the tally its support names
   * (0 against, 1 for, 2 abstain; other values count nowhere), and a Pending
   * proposal becomes Active.
   */
  function TalliedProposal(p: Proposal, support: int, weight: int): (q: Proposal)
    ensures TotalVotes(q) == TotalVotes(p) + (if support in {AGAINST, FOR, ABSTAIN} then weight else 0)
    ensures q.againstVotes == p.againstVotes + (if support == AGAINST then weight else 0)
    ensures q.forVotes == p.forVotes + (if support == FOR then weight else 0)
    ensures q.abstainVotes == p.abstainVotes + (if support == ABSTAIN then weight else 0)
    ensures q.state == (if p.state == PENDING then ACTIVE else p.state)
    ensures q.(forVotes := p.forVotes, againstVotes := p.againstVotes, abstainVotes := p.abstainVotes, state := p.state) == p
  {
    var r := if support == AGAINST then p.(againstVotes := p.againstVotes + weight)
             else if support == FOR then p.(forVotes := p.forVotes + weight)
             else if support == ABSTAIN then p.(abstainVotes := p.abstainVotes + weight)
             else p;
    if r.state == PENDING then r.(state := ACTIVE) else r
  }

  /** Votes in either order leave the same tallies and state. */
  lemma TallyOrderIndependent(p: Proposal, s1: int, w1: int, s2: int, w2: int)
    ensures TalliedProposal(TalliedProposal(p, s1, w1), s2, w2) == TalliedProposal(TalliedProposal(p, s2, w2), s1, w1)
  {
  }

  function VoteOf(ev: VoteCastEvent): (v: ProposalVote)
    ensures v.proposal == ev.proposalId && v.voter == ev.voter && v.tokenId == ev.tokenId
    ensures v.support == ev.support && v.weight == ev.weight && v.transaction == ev.meta.txHash
    ensures v.timestamp == ev.meta.timestamp
  {
    ProposalVote(ev.proposalId, ev.voter, ev.tokenId, ev.support, ev.weight, ev.meta.timestamp, ev.meta.txHash)
  }

  /**
   * `handleVoteCast`: always writes the vote record under
   * (proposal, voter, tokenId); tallies the proposal when it is known.
   */
  method HandleVoteCast(s: Store, ev: VoteCastEvent)
    requires s.Valid()
    modifies s`votes, s`proposals
    ensures s.Valid()
    ensures s.votes == old(s.votes)[VoteKey(ev.proposalId, ev.voter, ev.tokenId) := VoteOf(ev)]
    ensures ev.proposalId !in old(s.proposals) ==> s.proposals == old(s.proposals)
    ensures ev.proposalId in old(s.proposals) ==>
      s.proposals == old(s.proposals)[ev.proposalId := TalliedProposal(old(s.proposals)[ev.proposalId], ev.support, ev.weight)]
  {
    s.votes := s.votes[VoteKey(ev.proposalId, ev.voter, ev.tokenId) := VoteOf(ev)];
    if ev.proposalId in s.proposals {
      s.proposals := s.proposals[ev.proposalId := TalliedProposal(s.proposals[ev.proposalId], ev.support, ev.weight)];
    }
  }
}
