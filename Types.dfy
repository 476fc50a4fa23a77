/** Values shared by the election contract: identities, the workflow phases,
    the voter and proposal records, the typed errors that replace the
    contract's revert strings, and the events it emits. */
module VotingTypes {

  /** An account identity (an Ethereum address). Addresses are unbounded here;
      the zero address is the null identity the contract refuses to register. */
  type Address = nat

  const ZeroAddress: Address := 0

  /** The six phases of one election, in the order the contract runs them. */
  datatype WorkflowStatus =
    | RegisteringVoters
    | ProposalsRegistrationStarted
    | ProposalsRegistrationEnded
    | VotingSessionStarted
    | VotingSessionEnded
    | VotesTallied

  /** The numeric value the contract exposes for a phase (its enum ordinal). */
  function Ordinal(s: WorkflowStatus): (n: nat)
    ensures n <= 5
    ensures n == 0 <==> s == RegisteringVoters
    ensures n == 5 <==> s == VotesTallied
  {
    match s
    case RegisteringVoters => 0
    case ProposalsRegistrationStarted => 1
    case ProposalsRegistrationEnded => 2
    case VotingSessionStarted => 3
    case VotingSessionEnded => 4
    case VotesTallied => 5
  }

  /** The phase that follows `s`; the terminal phase has none. */
  function Next(s: WorkflowStatus): (t: WorkflowStatus)
    requires s != VotesTallied
    ensures Ordinal(t) == Ordinal(s) + 1
  {
    match s
    case RegisteringVoters => ProposalsRegistrationStarted
    case ProposalsRegistrationStarted => ProposalsRegistrationEnded
    case ProposalsRegistrationEnded => VotingSessionStarted
    case VotingSessionStarted => VotingSessionEnded
    case VotingSessionEnded => VotesTallied
  }

  /** A voter record; an address never registered reads as `NoVoter`. */
  datatype Voter = Voter(isRegistered: bool, hasVoted: bool, votedProposalId: nat)

  const NoVoter: Voter := Voter(false, false, 0)

  /** A proposal: its text and the votes it has received. */
  datatype Proposal = Proposal(description: string, voteCount: nat)

  /** The contract's failure conditions, one per revert reason. */
  datatype Error =
    | NotOwner           // caller is not the owner
    | InvalidAddress     // registering the zero address
    | AlreadyRegistered  // registering an address twice
    | NotRegistered      // caller is not a registered voter
    | EmptyDescription   // proposal with an empty description
    | WrongPhase         // operation outside its workflow phase
    | NoProposals        // closing proposal registration with no proposal
    | AlreadyVoted       // second vote by the same voter
    | NoSuchProposal     // proposal index out of range
    | NotTallied         // winner requested before the tally

  /** The outcome of a state-changing call: it succeeds or reverts. */
  datatype Outcome = Success | Failure(error: Error)

  /** The outcome of a read that can fail. */
  datatype Result<T> = Ok(value: T) | Err(error: Error)

  /** The events the contract emits. */
  datatype Event =
    | VoterRegistered(voterAddress: Address)
    | ProposalRegistered(proposalId: nat)
    | WorkflowStatusChange(previousStatus: WorkflowStatus, newStatus: WorkflowStatus)
    | Voted(voter: Address, proposalId: nat)
}
