/** The contract's test scenarios, replayed against the model: each method
    deploys a fresh contract, drives it through the calls of one test case,
    and promises in its postcondition what that test case checks. The setup
    methods are the shared preparation steps of each group of test cases;
    every preparation call is asserted to succeed. */
module VotingScenarios {
  import opened VotingTypes
  import opened Tally
  import opened VotingContract

  const Owner: Address := 100
  const Voter1: Address := 101
  const Voter2: Address := 102
  const Voter3: Address := 103
  const NonVoter: Address := 104

  // ---------------------------------------------------------------------
  // Initial state and voter registration

  method InitialState() returns (status: WorkflowStatus, owner: Address)
    ensures status == RegisteringVoters
    ensures owner == Owner
  {
    var v := new Voting(Owner);
    status, owner := v.workflowStatus, v.owner;
  }

  method OwnerRegistersVoter() returns (r: Outcome, voter: Voter)
    ensures r == Success
    ensures voter.isRegistered && !voter.hasVoted
  {
    var v := new Voting(Owner);
    r := v.RegisterVoter(Owner, Voter1);
    assert v.events == [VoterRegistered(Voter1)];
    voter := v.GetVoter(Voter1);
  }

  method NonOwnerRegistersVoter() returns (r: Outcome)
    ensures r == Failure(NotOwner)
  {
    var v := new Voting(Owner);
    r := v.RegisterVoter(Voter1, Voter2);
  }

  method RegisterVoterTwice() returns (r: Outcome)
    ensures r == Failure(AlreadyRegistered)
  {
    var v := new Voting(Owner);
    r := v.RegisterVoter(Owner, Voter1);
    assert r == Success;
    r := v.RegisterVoter(Owner, Voter1);
  }

  method RegisterZeroAddress() returns (r: Outcome)
    ensures r == Failure(InvalidAddress)
  {
    var v := new Voting(Owner);
    r := v.RegisterVoter(Owner, ZeroAddress);
  }

  // ---------------------------------------------------------------------
  // Proposals registration

  /** Deploy, then register two voters. */
  method SetupTwoVoters() returns (v: Voting)
    ensures fresh(v) && v.Valid()
    ensures v.owner == Owner && v.workflowStatus == RegisteringVoters
    ensures v.voters == map[Voter1 := Voter(true, false, 0), Voter2 := Voter(true, false, 0)]
    ensures v.proposals == []
  {
    v := new Voting(Owner);
    var r := v.RegisterVoter(Owner, Voter1);
    assert r == Success;
    r := v.RegisterVoter(Owner, Voter2);
    assert r == Success;
  }

  method StartProposals() returns (r: Outcome, status: WorkflowStatus)
    ensures r == Success && status == ProposalsRegistrationStarted
  {
    var v := SetupTwoVoters();
    ghost var before := v.events;
    r := v.StartProposalsRegistration(Owner);
    assert v.events == before + [WorkflowStatusChange(RegisteringVoters, ProposalsRegistrationStarted)];
    status := v.workflowStatus;
  }

  method VoterSubmitsProposal() returns (r: Outcome, p: Result<Proposal>)
    ensures r == Success
    ensures p == Ok(Proposal("Proposition 1", 0))
  {
    var v := SetupTwoVoters();
    var s := v.StartProposalsRegistration(Owner);
    assert s == Success;
    ghost var before := v.events;
    r := v.RegisterProposal(Voter1, "Proposition 1");
    assert v.events == before + [ProposalRegistered(0)];
    p := v.GetProposal(0);
  }

  method NonVoterSubmitsProposal() returns (r: Outcome)
    ensures r == Failure(NotRegistered)
  {
    var v := SetupTwoVoters();
    var s := v.StartProposalsRegistration(Owner);
    assert s == Success;
    r := v.RegisterProposal(NonVoter, "Proposition");
  }

  method EmptyProposal() returns (r: Outcome)
    ensures r == Failure(EmptyDescription)
  {
    var v := SetupTwoVoters();
    var s := v.StartProposalsRegistration(Owner);
    assert s == Success;
    r := v.RegisterProposal(Voter1, "");
  }

  method ProposalBeforeSession() returns (r: Outcome)
    ensures r == Failure(WrongPhase)
  {
    var v := SetupTwoVoters();
    r := v.RegisterProposal(Voter1, "Proposition");
  }

  method EndProposals() returns (r: Outcome, status: WorkflowStatus)
    ensures r == Success && status == ProposalsRegistrationEnded
  {
    var v := SetupTwoVoters();
    var s := v.StartProposalsRegistration(Owner);
    assert s == Success;
    s := v.RegisterProposal(Voter1, "Proposition 1");
    assert s == Success;
    ghost var before := v.events;
    r := v.EndProposalsRegistration(Owner);
    assert v.events == before + [WorkflowStatusChange(ProposalsRegistrationStarted, ProposalsRegistrationEnded)];
    status := v.workflowStatus;
  }

  method EndProposalsWithoutProposals() returns (r: Outcome)
    ensures r == Failure(NoProposals)
  {
    var v := SetupTwoVoters();
    var s := v.StartProposalsRegistration(Owner);
    assert s == Success;
    r := v.EndProposalsRegistration(Owner);
  }

  // ---------------------------------------------------------------------
  // Voting session

  /** Deploy, then register three voters. */
  method SetupThreeVoters() returns (v: Voting)
    ensures fresh(v) && v.Valid()
    ensures v.owner == Owner && v.workflowStatus == RegisteringVoters
    ensures v.voters == map[Voter1 := Voter(true, false, 0), Voter2 := Voter(true, false, 0),
                            Voter3 := Voter(true, false, 0)]
    ensures v.proposals == []
  {
    v := SetupTwoVoters();
    var r := v.RegisterVoter(Owner, Voter3);
    assert r == Success;
  }

  /** During proposal registration, each of the three voters submits one
      proposal, in turn. */
  method SubmitInTurn(v: Voting, d1: string, d2: string, d3: string)
    requires v.Valid() && v.workflowStatus == ProposalsRegistrationStarted
    requires v.voters == map[Voter1 := Voter(true, false, 0), Voter2 := Voter(true, false, 0),
                             Voter3 := Voter(true, false, 0)]
    requires v.proposals == []
    requires d1 != "" && d2 != "" && d3 != ""
    modifies v
    ensures v.Valid() && v.workflowStatus == ProposalsRegistrationStarted
    ensures v.voters == old(v.voters)
    ensures v.proposals == [Proposal(d1, 0), Proposal(d2, 0), Proposal(d3, 0)]
  {
    var r := v.RegisterProposal(Voter1, d1);
    assert r == Success;
    r := v.RegisterProposal(Voter2, d2);
    assert r == Success;
    r := v.RegisterProposal(Voter3, d3);
    assert r == Success;
  }

  /** Open proposal registration; each of the three voters submits one
      proposal, in turn; close proposal registration. */
  method SubmitThreeProposals(v: Voting, d1: string, d2: string, d3: string)
    requires v.Valid() && v.owner == Owner && v.workflowStatus == RegisteringVoters
    requires v.voters == map[Voter1 := Voter(true, false, 0), Voter2 := Voter(true, false, 0),
                             Voter3 := Voter(true, false, 0)]
    requires v.proposals == []
    requires d1 != "" && d2 != "" && d3 != ""
    modifies v
    ensures v.Valid() && v.workflowStatus == ProposalsRegistrationEnded
    ensures v.voters == old(v.voters)
    ensures v.proposals == [Proposal(d1, 0), Proposal(d2, 0), Proposal(d3, 0)]
  {
    var r := v.StartProposalsRegistration(Owner);
    assert r == Success;
    SubmitInTurn(v, d1, d2, d3);
    r := v.EndProposalsRegistration(Owner);
    assert r == Success;
  }

  /** Deploy, register three voters, each submits one proposal, close
      proposal registration. */
  method SetupThreeProposals() returns (v: Voting)
    ensures fresh(v) && v.Valid()
    ensures v.owner == Owner && v.workflowStatus == ProposalsRegistrationEnded
    ensures v.voters == map[Voter1 := Voter(true, false, 0), Voter2 := Voter(true, false, 0),
                            Voter3 := Voter(true, false, 0)]
    ensures v.proposals == [Proposal("Proposition 1", 0), Proposal("Proposition 2", 0),
                            Proposal("Proposition 3", 0)]
  {
    v := SetupThreeVoters();
    SubmitThreeProposals(v, "Proposition 1", "Proposition 2", "Proposition 3");
  }

  method StartVoting() returns (r: Outcome, status: WorkflowStatus)
    ensures r == Success && status == VotingSessionStarted
  {
    var v := SetupThreeProposals();
    ghost var before := v.events;
    r := v.StartVotingSession(Owner);
    assert v.events == before + [WorkflowStatusChange(ProposalsRegistrationEnded, VotingSessionStarted)];
    status := v.workflowStatus;
  }

  method RegisteredVoterVotes() returns (r: Outcome, voter: Voter, p: Result<Proposal>)
    ensures r == Success
    ensures voter.hasVoted && voter.votedProposalId == 0
    ensures p.Ok? && p.value.voteCount == 1
  {
    var v := SetupThreeProposals();
    var s := v.StartVotingSession(Owner);
    assert s == Success;
    ghost var before := v.events;
    r := v.Vote(Voter1, 0);
    assert v.events == before + [Voted(Voter1, 0)];
    voter := v.GetVoter(Voter1);
    p := v.GetProposal(0);
  }

  method NonVoterVotes() returns (r: Outcome)
    ensures r == Failure(NotRegistered)
  {
    var v := SetupThreeProposals();
    var s := v.StartVotingSession(Owner);
    assert s == Success;
    r := v.Vote(NonVoter, 0);
  }

  method VoteTwice() returns (r: Outcome)
    ensures r == Failure(AlreadyVoted)
  {
    var v := SetupThreeProposals();
    var s := v.StartVotingSession(Owner);
    assert s == Success;
    s := v.Vote(Voter1, 0);
    assert s == Success;
    r := v.Vote(Voter1, 1);
  }

  method VoteForMissingProposal() returns (r: Outcome)
    ensures r == Failure(NoSuchProposal)
  {
    var v := SetupThreeProposals();
    var s := v.StartVotingSession(Owner);
    assert s == Success;
    r := v.Vote(Voter1, 99);
  }

  method VoteBeforeSession() returns (r: Outcome)
    ensures r == Failure(WrongPhase)
  {
    var v := SetupThreeProposals();
    r := v.Vote(Voter1, 0);
  }

  method EndVoting() returns (r: Outcome, status: WorkflowStatus)
    ensures r == Success && status == VotingSessionEnded
  {
    var v := SetupThreeProposals();
    var s := v.StartVotingSession(Owner);
    assert s == Success;
    s := v.Vote(Voter1, 0);
    assert s == Success;
    ghost var before := v.events;
    r := v.EndVotingSession(Owner);
    assert v.events == before + [WorkflowStatusChange(VotingSessionStarted, VotingSessionEnded)];
    status := v.workflowStatus;
  }

  // ---------------------------------------------------------------------
  // Tally and winner

  /** The voting-session setup, with the voting session opened. */
  method SetupVotingSession() returns (v: Voting)
    ensures fresh(v) && v.Valid()
    ensures v.owner == Owner && v.workflowStatus == VotingSessionStarted
    ensures v.voters == map[Voter1 := Voter(true, false, 0), Voter2 := Voter(true, false, 0),
                            Voter3 := Voter(true, false, 0)]
    ensures v.proposals == [Proposal("Proposition 1", 0), Proposal("Proposition 2", 0),
                            Proposal("Proposition 3", 0)]
  {
    v := SetupThreeProposals();
    var r := v.StartVotingSession(Owner);
    assert r == Success;
  }

  /** One successful vote during the session: the voter's record and the
      chosen proposal's count change, and nothing else. */
  method CastVote(v: Voting, voter: Address, id: nat)
    requires v.Valid() && v.workflowStatus == VotingSessionStarted
    requires voter in v.voters && !v.voters[voter].hasVoted && id < |v.proposals|
    modifies v
    ensures v.Valid() && v.workflowStatus == VotingSessionStarted
    ensures v.voters == old(v.voters)[voter := Voter(true, true, id)]
    ensures v.proposals == old(v.proposals)[id := Proposal(old(v.proposals[id].description),
                                                           old(v.proposals[id].voteCount) + 1)]
  {
    var r := v.Vote(voter, id);
    assert r == Success;
  }

  /** Voters 1 and 2 vote for proposal 1, voter 3 for proposal 0, and the
      session is closed. */
  method VoteOneOneZero(v: Voting)
    requires v.Valid() && v.owner == Owner && v.workflowStatus == VotingSessionStarted
    requires v.voters == map[Voter1 := Voter(true, false, 0), Voter2 := Voter(true, false, 0),
                             Voter3 := Voter(true, false, 0)]
    requires v.proposals == [Proposal("Proposition 1", 0), Proposal("Proposition 2", 0),
                             Proposal("Proposition 3", 0)]
    modifies v
    ensures v.Valid() && v.workflowStatus == VotingSessionEnded
    ensures v.proposals == [Proposal("Proposition 1", 1), Proposal("Proposition 2", 2),
                            Proposal("Proposition 3", 0)]
  {
    CastVote(v, Voter1, 1);
    assert v.voters == map[Voter1 := Voter(true, true, 1), Voter2 := Voter(true, false, 0),
                           Voter3 := Voter(true, false, 0)];
    assert v.proposals == [Proposal("Proposition 1", 0), Proposal("Proposition 2", 1),
                           Proposal("Proposition 3", 0)];
    CastVote(v, Voter2, 1);
    assert v.voters == map[Voter1 := Voter(true, true, 1), Voter2 := Voter(true, true, 1),
                           Voter3 := Voter(true, false, 0)];
    assert v.proposals == [Proposal("Proposition 1", 0), Proposal("Proposition 2", 2),
                           Proposal("Proposition 3", 0)];
    CastVote(v, Voter3, 0);
    assert v.proposals == [Proposal("Proposition 1", 1), Proposal("Proposition 2", 2),
                           Proposal("Proposition 3", 0)];
    var s := v.EndVotingSession(Owner);
    assert s == Success;
  }

  method TallyAndWinner() returns (r: Outcome, winnerId: nat, winner: Result<Proposal>)
    ensures r == Success
    ensures winnerId == 1
    ensures winner == Ok(Proposal("Proposition 2", 2))
  {
    var v := SetupVotingSession();
    VoteOneOneZero(v);
    assert VoteCounts(v.proposals) == [1, 2, 0];
    KnownTallies();
    ghost var before := v.events;
    r := v.TallyVotes(Owner);
    assert v.events == before + [WorkflowStatusChange(VotingSessionEnded, VotesTallied)];
    winnerId := v.winningProposalId;
    winner := v.GetWinner();
  }

  method TallyBeforeVotingEnds() returns (r: Outcome)
    ensures r == Failure(WrongPhase)
  {
    var v := SetupVotingSession();
    r := v.TallyVotes(Owner);
  }

  method WinnerBeforeTally() returns (winner: Result<Proposal>)
    ensures winner == Err(NotTallied)
  {
    var v := SetupVotingSession();
    var s := v.Vote(Voter1, 0);
    assert s == Success;
    s := v.EndVotingSession(Owner);
    assert s == Success;
    winner := v.GetWinner();
  }

  method TieGoesToFirst() returns (winnerId: nat)
    ensures winnerId == 0
  {
    var v := SetupVotingSession();
    CastVote(v, Voter1, 0);
    CastVote(v, Voter2, 1);
    assert v.proposals == [Proposal("Proposition 1", 1), Proposal("Proposition 2", 1),
                           Proposal("Proposition 3", 0)];
    var s := v.EndVotingSession(Owner);
    assert s == Success;
    assert VoteCounts(v.proposals) == [1, 1, 0];
    KnownTallies();
    s := v.TallyVotes(Owner);
    assert s == Success;
    winnerId := v.winningProposalId;
  }

  // ---------------------------------------------------------------------
  // Getters

  /** Deploy, register one voter, who submits two proposals. */
  method SetupTwoProposals() returns (v: Voting)
    ensures fresh(v) && v.Valid()
    ensures v.owner == Owner && v.workflowStatus == ProposalsRegistrationStarted
    ensures v.voters == map[Voter1 := Voter(true, false, 0)]
    ensures v.proposals == [Proposal("Proposition 1", 0), Proposal("Proposition 2", 0)]
  {
    v := new Voting(Owner);
    var r := v.RegisterVoter(Owner, Voter1);
    assert r == Success;
    r := v.StartProposalsRegistration(Owner);
    assert r == Success;
    r := v.RegisterProposal(Voter1, "Proposition 1");
    assert r == Success;
    r := v.RegisterProposal(Voter1, "Proposition 2");
    assert r == Success;
  }

  method GetAllProposals() returns (ps: seq<Proposal>)
    ensures |ps| == 2
    ensures ps[0].description == "Proposition 1" && ps[1].description == "Proposition 2"
  {
    var v := SetupTwoProposals();
    ps := v.GetProposals();
  }

  method GetOneProposal() returns (p: Result<Proposal>)
    ensures p == Ok(Proposal("Proposition 1", 0))
  {
    var v := SetupTwoProposals();
    p := v.GetProposal(0);
  }

  method GetMissingProposal() returns (p: Result<Proposal>)
    ensures p == Err(NoSuchProposal)
  {
    var v := SetupTwoProposals();
    p := v.GetProposal(99);
  }

  method GetVoterInformation() returns (voter: Voter)
    ensures voter.isRegistered && !voter.hasVoted
  {
    var v := SetupTwoProposals();
    voter := v.GetVoter(Voter1);
  }

  // ---------------------------------------------------------------------
  // Complete workflow

  /** The voting phase of the complete workflow: open the session, voters 1
      and 2 vote for proposal 2, voter 3 for proposal 1, close the session. */
  method CompleteWorkflowVotes(v: Voting)
    requires v.Valid() && v.owner == Owner && v.workflowStatus == ProposalsRegistrationEnded
    requires v.voters == map[Voter1 := Voter(true, false, 0), Voter2 := Voter(true, false, 0),
                             Voter3 := Voter(true, false, 0)]
    requires v.proposals == [Proposal("Augmenter le budget", 0), Proposal("Reduire les impots", 0),
                             Proposal("Ameliorer les services", 0)]
    modifies v
    ensures v.Valid() && v.workflowStatus == VotingSessionEnded
    ensures v.proposals == [Proposal("Augmenter le budget", 0), Proposal("Reduire les impots", 1),
                            Proposal("Ameliorer les services", 2)]
  {
    var r := v.StartVotingSession(Owner);
    assert r == Success;
    CastVote(v, Voter1, 2);
    assert v.voters == map[Voter1 := Voter(true, true, 2), Voter2 := Voter(true, false, 0),
                           Voter3 := Voter(true, false, 0)];
    assert v.proposals == [Proposal("Augmenter le budget", 0), Proposal("Reduire les impots", 0),
                           Proposal("Ameliorer les services", 1)];
    CastVote(v, Voter2, 2);
    assert v.voters == map[Voter1 := Voter(true, true, 2), Voter2 := Voter(true, true, 2),
                           Voter3 := Voter(true, false, 0)];
    assert v.proposals == [Proposal("Augmenter le budget", 0), Proposal("Reduire les impots", 0),
                           Proposal("Ameliorer les services", 2)];
    CastVote(v, Voter3, 1);
    assert v.proposals == [Proposal("Augmenter le budget", 0), Proposal("Reduire les impots", 1),
                           Proposal("Ameliorer les services", 2)];
    r := v.EndVotingSession(Owner);
    assert r == Success;
  }

  method CompleteWorkflow() returns (winner: Result<Proposal>, status: WorkflowStatus)
    ensures winner == Ok(Proposal("Ameliorer les services", 2))
    ensures status == VotesTallied
  {
    var v := SetupThreeVoters();
    SubmitThreeProposals(v, "Augmenter le budget", "Reduire les impots", "Ameliorer les services");
    CompleteWorkflowVotes(v);
    assert VoteCounts(v.proposals) == [0, 1, 2];
    KnownTallies();
    var r := v.TallyVotes(Owner);
    assert r == Success;
    winner := v.GetWinner();
    status := v.workflowStatus;
  }
}
