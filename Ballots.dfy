/** Accounting over the voter registry: who has voted, and for which
    proposal, and how the registry and the proposal list may evolve. */
module Ballots {
  import opened VotingTypes

  /** The addresses that have cast their vote. */
  function VotedSet(voters: map<Address, Voter>): set<Address>
  {
    set a | a in voters && voters[a].hasVoted
  }

  /** The addresses whose vote went to proposal `id`. */
  function BallotsFor(voters: map<Address, Voter>, id: nat): set<Address>
  {
    set a | a in voters && voters[a].hasVoted && voters[a].votedProposalId == id
  }

  /** A freshly registered voter, who has not voted, changes no ballot. */
  lemma RegisterKeepsBallots(voters: map<Address, Voter>, a: Address, v: Voter)
    requires !v.hasVoted
    requires a !in voters
    ensures VotedSet(voters[a := v]) == VotedSet(voters)
    ensures forall id :: BallotsFor(voters[a := v], id) == BallotsFor(voters, id)
  {
  }

  /** A voter who has not voted yet casting a vote for `id` adds exactly that
      voter to the voters who voted and to the ballots for `id`, and leaves
      the ballots for every other proposal as they were. */
  lemma CastBallot(voters: map<Address, Voter>, a: Address, id: nat)
    requires a in voters && !voters[a].hasVoted
    ensures a !in VotedSet(voters) && a !in BallotsFor(voters, id)
    ensures VotedSet(voters[a := Voter(true, true, id)]) == VotedSet(voters) + {a}
    ensures BallotsFor(voters[a := Voter(true, true, id)], id) == BallotsFor(voters, id) + {a}
    ensures forall j :: j != id ==> BallotsFor(voters[a := Voter(true, true, id)], j) == BallotsFor(voters, j)
  {
  }

  /** How the voter registry may evolve: no record disappears, no
      registration is withdrawn, and a voter who has voted is frozen. */
  ghost predicate VotersExtend(before: map<Address, Voter>, after: map<Address, Voter>)
  {
    forall a :: a in before ==>
      && a in after
      && after[a].isRegistered == before[a].isRegistered
      && (before[a].hasVoted ==> after[a] == before[a])
  }

  /** How the proposal list may evolve: append only, descriptions immutable,
      counts never decrease. */
  ghost predicate ProposalsExtend(before: seq<Proposal>, after: seq<Proposal>)
  {
    && |before| <= |after|
    && forall i :: 0 <= i < |before| ==>
         after[i].description == before[i].description && after[i].voteCount >= before[i].voteCount
  }

  /** Registering a new address extends the registry. */
  lemma RegisterExtends(voters: map<Address, Voter>, a: Address, v: Voter)
    requires a !in voters
    ensures VotersExtend(voters, voters[a := v])
  {
  }

  /** A first vote extends the registry: only the voter's own record changes,
      and it had not voted. */
  lemma BallotExtends(voters: map<Address, Voter>, a: Address, id: nat)
    requires a in voters && voters[a].isRegistered && !voters[a].hasVoted
    ensures VotersExtend(voters, voters[a := Voter(true, true, id)])
  {
  }

  /** Appending a proposal extends the list. */
  lemma AppendExtends(proposals: seq<Proposal>, p: Proposal)
    ensures ProposalsExtend(proposals, proposals + [p])
  {
  }

  /** One more vote for one proposal extends the list. */
  lemma IncrementExtends(proposals: seq<Proposal>, id: nat)
    requires id < |proposals|
    ensures ProposalsExtend(proposals,
              proposals[id := Proposal(proposals[id].description, proposals[id].voteCount + 1)])
  {
  }
}
