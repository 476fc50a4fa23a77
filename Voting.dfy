/** The single-election voting contract. One deployed instance is one
    `Voting` object; every external call is a method whose first parameter is
    the caller (`msg.sender`). A call either succeeds, updating the state and
    appending its event to the log, or reverts with an `Error` and leaves the
    whole state as it was. */
module VotingContract {
  import opened VotingTypes
  import opened Tally
  import opened Ballots

  /** The registry holds only registered, non-null identities, and a vote
      names one of the `n` proposals (before voting the id is 0). */
  ghost predicate RegistryOk(voters: map<Address, Voter>, n: nat)
  {
    && ZeroAddress !in voters
    && (forall a :: a in voters ==> voters[a].isRegistered)
    && (forall a :: a in voters ==>
          if voters[a].hasVoted then voters[a].votedProposalId < n
          else voters[a].votedProposalId == 0)
  }

  /** Each count is the number of ballots for that proposal, and the counts
      add up to the number of voters who have voted. */
  ghost predicate CountsMatch(voters: map<Address, Voter>, proposals: seq<Proposal>)
  {
    && (forall i :: 0 <= i < |proposals| ==> proposals[i].voteCount == |BallotsFor(voters, i)|)
    && Sum(VoteCounts(proposals)) == |VotedSet(voters)|
  }

  /** The invariant of an election state, over its values. */
  ghost predicate Consistent(status: WorkflowStatus, voters: map<Address, Voter>,
                             proposals: seq<Proposal>, winningProposalId: nat)
  {
    && RegistryOk(voters, |proposals|)
    && (forall i :: 0 <= i < |proposals| ==> proposals[i].description != "")
    && CountsMatch(voters, proposals)
    // once proposal registration has closed there is a proposal
    && (Ordinal(status) >= 2 ==> |proposals| > 0)
    // nobody votes before the voting session
    && (Ordinal(status) < 3 ==> VotedSet(voters) == {})
    // the winner is set by the tally and only by it
    && (status == VotesTallied ==> winningProposalId == Winner(VoteCounts(proposals)))
    && (status != VotesTallied ==> winningProposalId == 0)
  }

  /** Registering a new, non-null voter keeps the invariant. */
  lemma RegisterVoterKeeps(status: WorkflowStatus, voters: map<Address, Voter>,
                           proposals: seq<Proposal>, w: nat, a: Address)
    requires Consistent(status, voters, proposals, w)
    requires a != ZeroAddress && a !in voters
    ensures Consistent(status, voters[a := Voter(true, false, 0)], proposals, w)
  {
    RegisterKeepsBallots(voters, a, Voter(true, false, 0));
  }

  lemma AppendKeepsCounts(voters: map<Address, Voter>, proposals: seq<Proposal>, description: string)
    requires CountsMatch(voters, proposals) && VotedSet(voters) == {}
    ensures CountsMatch(voters, proposals + [Proposal(description, 0)])
  {
    var ps := proposals + [Proposal(description, 0)];
    VoteCountsAppend(proposals, Proposal(description, 0));
    SumAppend(VoteCounts(proposals), 0);
    assert BallotsFor(voters, |proposals|) <= VotedSet(voters);
    forall i | 0 <= i < |ps| ensures ps[i].voteCount == |BallotsFor(voters, i)| {
      if i < |proposals| { assert ps[i] == proposals[i]; }
    }
  }

  /** Appending a proposal with no votes before anyone voted keeps the invariant. */
  lemma RegisterProposalKeeps(status: WorkflowStatus, voters: map<Address, Voter>,
                              proposals: seq<Proposal>, w: nat, description: string)
    requires Consistent(status, voters, proposals, w)
    requires status == ProposalsRegistrationStarted && description != ""
    ensures Consistent(status, voters, proposals + [Proposal(description, 0)], w)
  {
    AppendKeepsCounts(voters, proposals, description);
  }

  lemma BallotKeepsRegistry(voters: map<Address, Voter>, n: nat, a: Address, id: nat)
    requires RegistryOk(voters, n) && a in voters && id < n
    ensures RegistryOk(voters[a := Voter(true, true, id)], n)
  {
  }

  lemma BallotKeepsCounts(voters: map<Address, Voter>, proposals: seq<Proposal>, a: Address, id: nat)
    requires CountsMatch(voters, proposals)
    requires a in voters && !voters[a].hasVoted && id < |proposals|
    ensures CountsMatch(voters[a := Voter(true, true, id)],
                        proposals[id := Proposal(proposals[id].description, proposals[id].voteCount + 1)])
  {
    var p' := Proposal(proposals[id].description, proposals[id].voteCount + 1);
    var ps := proposals[id := p'];
    var vs := voters[a := Voter(true, true, id)];
    CastBallot(voters, a, id);
    forall i | 0 <= i < |ps| ensures ps[i].voteCount == |BallotsFor(vs, i)| {
      if i != id { assert ps[i] == proposals[i]; }
    }
    VoteCountsUpdate(proposals, id, p');
    SumIncrement(VoteCounts(proposals), id);
  }

  /** A first vote by a registered voter for an existing proposal during the
      voting session keeps the invariant. */
  lemma VoteKeeps(status: WorkflowStatus, voters: map<Address, Voter>,
                  proposals: seq<Proposal>, w: nat, a: Address, id: nat)
    requires Consistent(status, voters, proposals, w)
    requires status == VotingSessionStarted
    requires a in voters && !voters[a].hasVoted && id < |proposals|
    ensures Consistent(status, voters[a := Voter(true, true, id)],
                       proposals[id := Proposal(proposals[id].description, proposals[id].voteCount + 1)], w)
  {
    BallotKeepsRegistry(voters, |proposals|, a, id);
    BallotKeepsCounts(voters, proposals, a, id);
  }

  class Voting {
    /** The deployer; immutable. */
    const owner: Address
    var workflowStatus: WorkflowStatus
    var voters: map<Address, Voter>
    var proposals: seq<Proposal>
    var winningProposalId: nat
    /** The events emitted so far, oldest first. */
    ghost var events: seq<Event>

    /** The contract's invariant. */
    ghost predicate Valid()
      reads this
    {
      Consistent(workflowStatus, voters, proposals, winningProposalId)
    }

    /** Deployment: `deployer` becomes the owner, no voter, no proposal. */
    constructor (deployer: Address)
      ensures Valid()
      ensures owner == deployer
      ensures workflowStatus == RegisteringVoters
      ensures voters == map[] && proposals == [] && winningProposalId == 0
      ensures events == []
    {
      owner := deployer;
      workflowStatus := RegisteringVoters;
      voters := map[];
      proposals := [];
      winningProposalId := 0;
      events := [];
    }

    /** The registered-voter guard shared by `RegisterProposal` and `Vote`. */
    predicate IsRegisteredVoter(a: Address)
      reads this
    {
      a in voters && voters[a].isRegistered
    }

    /** The owner registers `voter` during voter registration. */
    method RegisterVoter(sender: Address, voter: Address) returns (r: Outcome)
      requires Valid()
      modifies this
      ensures Valid()
      ensures sender != owner ==> r == Failure(NotOwner)
      ensures sender == owner && old(workflowStatus) != RegisteringVoters ==> r == Failure(WrongPhase)
      ensures (sender == owner && old(workflowStatus) == RegisteringVoters && voter == ZeroAddress)
              ==> r == Failure(InvalidAddress)
      ensures (sender == owner && old(workflowStatus) == RegisteringVoters && voter != ZeroAddress
               && old(IsRegisteredVoter(voter)))
              ==> r == Failure(AlreadyRegistered)
      ensures r.Success? <==>
              sender == owner && old(workflowStatus) == RegisteringVoters && voter != ZeroAddress
              && !old(IsRegisteredVoter(voter))
      ensures r.Failure? ==> unchanged(this)
      ensures VotersExtend(old(voters), voters) && ProposalsExtend(old(proposals), proposals)
      ensures r.Success? ==>
              && voters == old(voters)[voter := Voter(true, false, 0)]
              && voter !in old(voters)
              && proposals == old(proposals)
              && workflowStatus == old(workflowStatus)
              && winningProposalId == old(winningProposalId)
              && events == old(events) + [VoterRegistered(voter)]
    {
      if sender != owner { return Failure(NotOwner); }
      if workflowStatus != RegisteringVoters { return Failure(WrongPhase); }
      if voter == ZeroAddress { return Failure(InvalidAddress); }
      if IsRegisteredVoter(voter) { return Failure(AlreadyRegistered); }
      RegisterVoterKeeps(workflowStatus, voters, proposals, winningProposalId, voter);
      RegisterExtends(voters, voter, Voter(true, false, 0));
      voters := voters[voter := Voter(true, false, 0)];
      events := events + [VoterRegistered(voter)];
      r := Success;
    }

    /** The common shape of a successful phase change: the phase moves from
        `from` one step forward, the change is logged, and nothing else moves. */
    twostate predicate AdvancedFrom(from: WorkflowStatus)
      reads this
    {
      && from != VotesTallied
      && old(workflowStatus) == from
      && workflowStatus == Next(from)
      && Ordinal(workflowStatus) == Ordinal(old(workflowStatus)) + 1
      && voters == old(voters)
      && proposals == old(proposals)
      && events == old(events) + [WorkflowStatusChange(from, Next(from))]
    }

    method StartProposalsRegistration(sender: Address) returns (r: Outcome)
      requires Valid()
      modifies this
      ensures Valid()
      ensures sender != owner ==> r == Failure(NotOwner)
      ensures sender == owner && old(workflowStatus) != RegisteringVoters ==> r == Failure(WrongPhase)
      ensures r.Success? <==> sender == owner && old(workflowStatus) == RegisteringVoters
      ensures r.Failure? ==> unchanged(this)
      ensures VotersExtend(old(voters), voters) && ProposalsExtend(old(proposals), proposals)
      ensures r.Success? ==> AdvancedFrom(RegisteringVoters) && winningProposalId == old(winningProposalId)
    {
      if sender != owner { return Failure(NotOwner); }
      if workflowStatus != RegisteringVoters { return Failure(WrongPhase); }
      workflowStatus := ProposalsRegistrationStarted;
      events := events + [WorkflowStatusChange(RegisteringVoters, ProposalsRegistrationStarted)];
      r := Success;
    }

    /** A registered voter submits a proposal; it gets the next index and no votes. */
    method RegisterProposal(sender: Address, description: string) returns (r: Outcome)
      requires Valid()
      modifies this
      ensures Valid()
      ensures !old(IsRegisteredVoter(sender)) ==> r == Failure(NotRegistered)
      ensures (old(IsRegisteredVoter(sender)) && old(workflowStatus) != ProposalsRegistrationStarted)
              ==> r == Failure(WrongPhase)
      ensures (old(IsRegisteredVoter(sender)) && old(workflowStatus) == ProposalsRegistrationStarted
               && description == "")
              ==> r == Failure(EmptyDescription)
      ensures r.Success? <==>
              old(IsRegisteredVoter(sender)) && old(workflowStatus) == ProposalsRegistrationStarted
              && description != ""
      ensures r.Failure? ==> unchanged(this)
      ensures VotersExtend(old(voters), voters) && ProposalsExtend(old(proposals), proposals)
      ensures r.Success? ==>
              && proposals == old(proposals) + [Proposal(description, 0)]
              && voters == old(voters)
              && workflowStatus == old(workflowStatus)
              && winningProposalId == old(winningProposalId)
              && events == old(events) + [ProposalRegistered(|old(proposals)|)]
    {
      if !IsRegisteredVoter(sender) { return Failure(NotRegistered); }
      if workflowStatus != ProposalsRegistrationStarted { return Failure(WrongPhase); }
      if description == "" { return Failure(EmptyDescription); }
      var id := |proposals|;
      RegisterProposalKeeps(workflowStatus, voters, proposals, winningProposalId, description);
      AppendExtends(proposals, Proposal(description, 0));
      proposals := proposals + [Proposal(description, 0)];
      events := events + [ProposalRegistered(id)];
      r := Success;
    }

    method EndProposalsRegistration(sender: Address) returns (r: Outcome)
      requires Valid()
      modifies this
      ensures Valid()
      ensures sender != owner ==> r == Failure(NotOwner)
      ensures (sender == owner && old(workflowStatus) != ProposalsRegistrationStarted)
              ==> r == Failure(WrongPhase)
      ensures (sender == owner && old(workflowStatus) == ProposalsRegistrationStarted
               && old(proposals) == [])
              ==> r == Failure(NoProposals)
      ensures r.Success? <==>
              sender == owner && old(workflowStatus) == ProposalsRegistrationStarted
              && old(proposals) != []
      ensures r.Failure? ==> unchanged(this)
      ensures VotersExtend(old(voters), voters) && ProposalsExtend(old(proposals), proposals)
      ensures r.Success? ==> AdvancedFrom(ProposalsRegistrationStarted) && winningProposalId == old(winningProposalId)
    {
      if sender != owner { return Failure(NotOwner); }
      if workflowStatus != ProposalsRegistrationStarted { return Failure(WrongPhase); }
      if |proposals| == 0 { return Failure(NoProposals); }
      workflowStatus := ProposalsRegistrationEnded;
      events := events + [WorkflowStatusChange(ProposalsRegistrationStarted, ProposalsRegistrationEnded)];
      r := Success;
    }

    method StartVotingSession(sender: Address) returns (r: Outcome)
      requires Valid()
      modifies this
      ensures Valid()
      ensures sender != owner ==> r == Failure(NotOwner)
      ensures (sender == owner && old(workflowStatus) != ProposalsRegistrationEnded)
              ==> r == Failure(WrongPhase)
      ensures r.Success? <==> sender == owner && old(workflowStatus) == ProposalsRegistrationEnded
      ensures r.Failure? ==> unchanged(this)
      ensures VotersExtend(old(voters), voters) && ProposalsExtend(old(proposals), proposals)
      ensures r.Success? ==> AdvancedFrom(ProposalsRegistrationEnded) && winningProposalId == old(winningProposalId)
    {
      if sender != owner { return Failure(NotOwner); }
      if workflowStatus != ProposalsRegistrationEnded { return Failure(WrongPhase); }
      workflowStatus := VotingSessionStarted;
      events := events + [WorkflowStatusChange(ProposalsRegistrationEnded, VotingSessionStarted)];
      r := Success;
    }

    /** A registered voter who has not voted yet votes for an existing
        proposal: that proposal, and only it, gains one vote. */
    method Vote(sender: Address, proposalId: nat) returns (r: Outcome)
      requires Valid()
      modifies this
      ensures Valid()
      ensures !old(IsRegisteredVoter(sender)) ==> r == Failure(NotRegistered)
      ensures (old(IsRegisteredVoter(sender)) && old(workflowStatus) != VotingSessionStarted)
              ==> r == Failure(WrongPhase)
      ensures (old(IsRegisteredVoter(sender)) && old(workflowStatus) == VotingSessionStarted
               && old(voters[sender].hasVoted))
              ==> r == Failure(AlreadyVoted)
      ensures (old(IsRegisteredVoter(sender)) && old(workflowStatus) == VotingSessionStarted
               && !old(voters[sender].hasVoted) && proposalId >= old(|proposals|))
              ==> r == Failure(NoSuchProposal)
      ensures r.Success? <==>
              old(IsRegisteredVoter(sender)) && old(workflowStatus) == VotingSessionStarted
              && !old(voters[sender].hasVoted) && proposalId < old(|proposals|)
      ensures r.Failure? ==> unchanged(this)
      ensures VotersExtend(old(voters), voters) && ProposalsExtend(old(proposals), proposals)
      ensures r.Success? ==>
              && proposalId < |proposals|
              && voters == old(voters)[sender := Voter(true, true, proposalId)]
              && proposals == old(proposals)[proposalId :=
                   Proposal(old(proposals[proposalId].description), old(proposals[proposalId].voteCount) + 1)]
              && workflowStatus == old(workflowStatus)
              && winningProposalId == old(winningProposalId)
              && events == old(events) + [Voted(sender, proposalId)]
      ensures r.Success? ==> Sum(VoteCounts(proposals)) == Sum(VoteCounts(old(proposals))) + 1
    {
      if !IsRegisteredVoter(sender) { return Failure(NotRegistered); }
      if workflowStatus != VotingSessionStarted { return Failure(WrongPhase); }
      if voters[sender].hasVoted { return Failure(AlreadyVoted); }
      if proposalId >= |proposals| { return Failure(NoSuchProposal); }
      var p := proposals[proposalId];
      var p' := Proposal(p.description, p.voteCount + 1);
      VoteKeeps(workflowStatus, voters, proposals, winningProposalId, sender, proposalId);
      VoteCountsUpdate(proposals, proposalId, p');
      SumIncrement(VoteCounts(proposals), proposalId);
      BallotExtends(voters, sender, proposalId);
      IncrementExtends(proposals, proposalId);
      voters := voters[sender := Voter(true, true, proposalId)];
      proposals := proposals[proposalId := p'];
      events := events + [Voted(sender, proposalId)];
      r := Success;
    }

    method EndVotingSession(sender: Address) returns (r: Outcome)
      requires Valid()
      modifies this
      ensures Valid()
      ensures sender != owner ==> r == Failure(NotOwner)
      ensures sender == owner && old(workflowStatus) != VotingSessionStarted ==> r == Failure(WrongPhase)
      ensures r.Success? <==> sender == owner && old(workflowStatus) == VotingSessionStarted
      ensures r.Failure? ==> unchanged(this)
      ensures VotersExtend(old(voters), voters) && ProposalsExtend(old(proposals), proposals)
      ensures r.Success? ==> AdvancedFrom(VotingSessionStarted) && winningProposalId == old(winningProposalId)
    {
      if sender != owner { return Failure(NotOwner); }
      if workflowStatus != VotingSessionStarted { return Failure(WrongPhase); }
      workflowStatus := VotingSessionEnded;
      events := events + [WorkflowStatusChange(VotingSessionStarted, VotingSessionEnded)];
      r := Success;
    }

    /** The owner closes the election: the tally records the lowest index
        with the most votes. */
    method TallyVotes(sender: Address) returns (r: Outcome)
      requires Valid()
      modifies this
      ensures Valid()
      ensures sender != owner ==> r == Failure(NotOwner)
      ensures sender == owner && old(workflowStatus) != VotingSessionEnded ==> r == Failure(WrongPhase)
      ensures r.Success? <==> sender == owner && old(workflowStatus) == VotingSessionEnded
      ensures r.Failure? ==> unchanged(this)
      ensures VotersExtend(old(voters), voters) && ProposalsExtend(old(proposals), proposals)
      ensures r.Success? ==>
              && AdvancedFrom(VotingSessionEnded)
              && IsLowestMax(VoteCounts(proposals), winningProposalId)
    {
      if sender != owner { return Failure(NotOwner); }
      if workflowStatus != VotingSessionEnded { return Failure(WrongPhase); }
      var w := ScanWinner(proposals);
      winningProposalId := w;
      workflowStatus := VotesTallied;
      events := events + [WorkflowStatusChange(VotingSessionEnded, VotesTallied)];
      r := Success;
    }

    /** The voter record of `a`; an address never registered reads as the
        all-false, zero record. Over a valid state an address reads as
        registered exactly when it is in the registry, and a voter who voted
        names an existing proposal. */
    function GetVoter(a: Address): (v: Voter)
      reads this
      ensures a in voters ==> v == voters[a]
      ensures a !in voters ==> v == NoVoter
      ensures Valid() ==> (v.isRegistered <==> a in voters)
      ensures Valid() && v.hasVoted ==> v.isRegistered && v.votedProposalId < |proposals|
      ensures Valid() && !v.hasVoted ==> v.votedProposalId == 0
    {
      if a in voters then voters[a] else NoVoter
    }

    /** The projections of `GetVoter` the app reads. */
    function IsVoterRegistered(a: Address): bool
      reads this
    {
      GetVoter(a).isRegistered
    }

    function HasVoterVoted(a: Address): bool
      reads this
    {
      GetVoter(a).hasVoted
    }

    function GetVoterVotedProposalId(a: Address): nat
      reads this
    {
      GetVoter(a).votedProposalId
    }

    function GetProposal(id: nat): (r: Result<Proposal>)
      reads this
    {
      if id < |proposals| then Ok(proposals[id]) else Err(NoSuchProposal)
    }

    function GetProposals(): seq<Proposal>
      reads this
    {
      proposals
    }

    /** The bulk read and the indexed read agree: every valid index reads the
        same proposal both ways, and every other index fails. */
    lemma ProposalReadsAgree(id: nat)
      ensures id < |GetProposals()| ==> GetProposal(id) == Ok(GetProposals()[id])
      ensures id >= |GetProposals()| ==> GetProposal(id) == Err(NoSuchProposal)
    {
    }

    /** The winner's description and vote count, once tallied. */
    function GetWinner(): (r: Result<Proposal>)
      reads this
      requires Valid()
      ensures r.Ok? <==> workflowStatus == VotesTallied
      ensures r.Err? ==> r.error == NotTallied
      ensures r.Ok? ==>
              && winningProposalId < |proposals|
              && r.value == proposals[winningProposalId]
              && (forall i :: 0 <= i < |proposals| ==> proposals[i].voteCount <= r.value.voteCount)
              && (forall i :: 0 <= i < winningProposalId ==> proposals[i].voteCount < r.value.voteCount)
    {
      if workflowStatus != VotesTallied then Err(NotTallied)
      else
        WinnerIsLowestMax(VoteCounts(proposals));
        Ok(proposals[winningProposalId])
    }
  }
}
