# Single-election voting contract, modelled in Dafny

This project models the `Voting` smart contract of the eth-voting-dapp
repository: one election run by one owner (the deployer) through six phases,

`RegisteringVoters → ProposalsRegistrationStarted → ProposalsRegistrationEnded → VotingSessionStarted → VotingSessionEnded → VotesTallied`.

The owner registers voters and moves the phases forward. Registered voters
submit proposals and then vote once each. The tally picks the proposal with
the most votes, and a tie goes to the lowest index. The contract's Solidity
source is not part of this model. Its behaviour is taken from the Truffle
test suite `test/voting.js`, which drives one contract instance per test case.

Modules:

- `VotingTypes` (Types.dfy): addresses (`nat`, the zero address is `0`), the
  phases with their ordinals, the `Voter` and `Proposal` records, the `Error`
  enum, the call outcomes and the events.
- `Tally` (Tally.dfy): `Winner` is the reference definition of the winning
  index. `IsLowestMax` characterises it. `ScanWinner` is the tally loop,
  proved equal to `Winner`. `Sum` adds up the vote counts.
- `Ballots` (Ballots.dfy): who voted (`VotedSet`) and for what
  (`BallotsFor`), with the lemmas for registering and voting, and the
  predicates saying how the registry and the proposal list may evolve
  (`VotersExtend`, `ProposalsExtend`), which every state-changing call
  promises.
- `VotingContract` (Voting.dfy): the class `Voting`, one method per
  contract call and one function per read. `Consistent` is the contract
  invariant. The `...Keeps` lemmas prove that each operation preserves it.
- `VotingScenarios` (Scenarios.dfy): each test case replayed against the
  model, with the test's expectations as postconditions.

Modelling decisions:

- The caller (`msg.sender`) is the first parameter of every call.
- A call returns `Success` or `Failure(e)`. A failure is a revert, so the
  whole state is unchanged (`unchanged(this)`). The tests do not check this
  directly; it is the all-or-nothing semantics of a reverted transaction.
- Revert strings become `Error` values:
  - `NotOwner`: the owner-only guard. The suite expects an unspecified revert.
  - `InvalidAddress`: "Adresse invalide".
  - `AlreadyRegistered`: "Cet electeur est deja enregistre".
  - `NotRegistered`: "Vous n'etes pas un electeur enregistre".
  - `EmptyDescription`: "La description ne peut pas etre vide".
  - `WrongPhase`: every "... n'est pas en cours" and "doit etre terminee".
  - `NoProposals`: "Aucune proposition n'a ete enregistree".
  - `AlreadyVoted`: "Vous avez deja vote".
  - `NoSuchProposal`: "Cette proposition n'existe pas".
  - `NotTallied`: "Les votes n'ont pas encore ete comptabilises".
- The tests never call with two guards failing at once, so the order of the
  checks is a modelling choice:
  - caller check (owner or registered voter) first;
  - then the phase;
  - then the argument checks, in the order listed for each method.
- `registerVoter` is accepted only during `RegisteringVoters`. The app
  offers the owner the voter-registration form only in phase 0
  (src/js/app.js:149-150); the tests do not exercise this guard.
- The tests read voters only after registering them (test/voting.js:44,
  184, 336). The app, however, reads the current account for every visitor
  through `isVoterRegistered`, `hasVoterVoted` and `getVoterVotedProposalId`
  (src/js/app.js:69-71), and that account may never have been registered,
  so those reads do not revert. `GetVoter` returns the all-false, zero
  record for such an address, as a Solidity mapping does.
- Events are appended to a ghost log `events`. The scenario methods assert
  the event each test case expects.
- Vote counts and ids are unbounded `nat`s.
- In the end-to-end scenario (test/voting.js:360-362), voters 1 and 2 vote
  for proposal 2 and voter 3 for proposal 1. The counts are `[0, 1, 2]` and
  the winner is proposal 2, "Ameliorer les services", with 2 votes.

## Model

| member | source | states |
|---|---|---|
| VotingTypes.Ordinal | test/voting.js:15-22 | the six phases have ordinals 0 to 5; ordinal 0 is exactly `RegisteringVoters` and ordinal 5 exactly `VotesTallied` |
| VotingTypes.Next | test/voting.js:15-22 | the phase after a non-terminal phase has an ordinal one higher |
| Tally.WinnerIsLowestMax | test/voting.js:257-303 | the reference winner has the largest count, and every earlier proposal has strictly fewer votes |
| Tally.WinnerCharacterized | test/voting.js:295-303 | an index is the lowest index with a maximal count if and only if it is `Winner` |
| Tally.KnownTallies | test/voting.js:257-303 | counts [1,2,0] give 1, [1,1,0] give 0, [0,1,2] give 2; also [0,0,0] gives 0, [2,2,1] gives 0, [1,3,3] gives 1 |
| Tally.ScanWinner | test/voting.js:263-271 | the single pass keeping the best index and count so far returns exactly `Winner` of the vote counts, a lowest maximal index |
| Tally.SumIncrement | test/voting.js:180-189 | one more vote for one proposal raises the total by exactly one |
| Ballots.RegisterKeepsBallots | test/voting.js:39-47 | adding a voter who has not voted changes neither the voted set nor any proposal's ballots |
| Ballots.CastBallot | test/voting.js:177-190 | a first vote for `id` adds the voter to the voted set and to `id`'s ballots, and leaves every other proposal's ballots as they were |
| Ballots.RegisterExtends | test/voting.js:39-47 | registering a new address keeps every existing voter record |
| Ballots.BallotExtends | test/voting.js:201-209 | a first vote changes only the voter's own record, which had not voted, so no earlier vote is altered |
| Ballots.AppendExtends | test/voting.js:315-320 | submitting a proposal keeps every earlier proposal at its index, so the list stays in submission order |
| Ballots.IncrementExtends | test/voting.js:177-190 | a vote keeps every description and lowers no count |
| VotingContract.RegisterVoterKeeps | test/voting.js:39-47 | registering a new non-zero voter preserves the contract invariant |
| VotingContract.RegisterProposalKeeps | test/voting.js:90-100 | appending a proposal with zero votes during proposal registration preserves the invariant |
| VotingContract.VoteKeeps | test/voting.js:177-190 | a first vote for an existing proposal during the session preserves the invariant, including per-proposal counts equal to ballots and total equal to voters who voted |
| VotingContract.Voting.constructor | test/voting.js:26-37 | a fresh contract is in `RegisteringVoters`, its owner is the deployer, and it has no voters, no proposals and no events |
| VotingContract.Voting.RegisterVoter | test/voting.js:39-68 | the owner registers a new non-zero address as registered and not voted, and logs `VoterRegistered`; a non-owner, a wrong phase, the zero address or an already registered address fail with their own errors; a failure changes nothing; every call, successful or not, keeps every voter record and every earlier proposal (`VotersExtend`, `ProposalsExtend`) |
| VotingContract.Voting.StartProposalsRegistration | test/voting.js:78-88 | owner only, and only from `RegisteringVoters`; advances exactly one phase and logs `WorkflowStatusChange(RegisteringVoters, ProposalsRegistrationStarted)`; every call, successful or not, keeps every voter record and every earlier proposal (`VotersExtend`, `ProposalsExtend`) |
| VotingContract.Voting.RegisterProposal | test/voting.js:90-125 | a registered voter, during proposal registration, with a non-empty description, appends the proposal at the next index with zero votes and logs `ProposalRegistered` with that index; otherwise `NotRegistered`, `WrongPhase` or `EmptyDescription`, and the list is unchanged; every call, successful or not, keeps every voter record and every earlier proposal (`VotersExtend`, `ProposalsExtend`) |
| VotingContract.Voting.EndProposalsRegistration | test/voting.js:127-149 | owner only, only from `ProposalsRegistrationStarted`, and fails with `NoProposals` while the list is empty; advances one phase and logs the change; every call, successful or not, keeps every voter record and every earlier proposal (`VotersExtend`, `ProposalsExtend`) |
| VotingContract.Voting.StartVotingSession | test/voting.js:165-175 | owner only, only from `ProposalsRegistrationEnded`; advances one phase and logs the change; every call, successful or not, keeps every voter record and every earlier proposal (`VotersExtend`, `ProposalsExtend`) |
| VotingContract.Voting.Vote | test/voting.js:177-225 | a registered voter who has not voted, during the session, for an existing proposal: only that proposal gains one vote, the voter becomes voted for it, the total rises by one, and `Voted` is logged; otherwise `NotRegistered`, `WrongPhase`, `AlreadyVoted` or `NoSuchProposal`, and nothing changes; every call, successful or not, keeps every voter record and every earlier proposal (`VotersExtend`, `ProposalsExtend`) |
| VotingContract.Voting.EndVotingSession | test/voting.js:227-240 | owner only, only from `VotingSessionStarted`; advances one phase and logs the change; every call, successful or not, keeps every voter record and every earlier proposal (`VotersExtend`, `ProposalsExtend`) |
| VotingContract.Voting.TallyVotes | test/voting.js:257-283 | owner only, only from `VotingSessionEnded`; records the lowest index with a maximal count as the winner, advances to `VotesTallied` and logs the change; every call, successful or not, keeps every voter record and every earlier proposal (`VotersExtend`, `ProposalsExtend`) |
| VotingContract.Voting.GetVoter | test/voting.js:44-46 | a registered address reads its own record, any other address the all-false zero record; over a valid state an address reads as registered exactly when it is in the registry, a voter who voted names an existing proposal, and one who has not reads id 0 (the app's `isVoterRegistered`, `hasVoterVoted` and `getVoterVotedProposalId` are projections of it) |
| VotingContract.Voting.ProposalReadsAgree | test/voting.js:315-333 | the indexed read returns the same proposal as the bulk read at every valid index and fails with `NoSuchProposal` at every other index |
| VotingContract.Voting.GetWinner | test/voting.js:270-293 | succeeds exactly in `VotesTallied`, otherwise fails with `NotTallied`; returns the winning proposal, whose count no proposal exceeds and every earlier proposal falls short of |
| VotingScenarios.InitialState | test/voting.js:29-37 | a new deployment is in `RegisteringVoters` and owned by the deployer |
| VotingScenarios.OwnerRegistersVoter | test/voting.js:39-47 | the owner's registration succeeds and the record is registered and not voted |
| VotingScenarios.NonOwnerRegistersVoter | test/voting.js:49-53 | a voter registering another address fails with `NotOwner` |
| VotingScenarios.RegisterVoterTwice | test/voting.js:55-61 | the second registration of one address fails with `AlreadyRegistered` |
| VotingScenarios.RegisterZeroAddress | test/voting.js:63-68 | registering the zero address fails with `InvalidAddress` |
| VotingScenarios.StartProposals | test/voting.js:78-88 | opening proposal registration succeeds and the phase is `ProposalsRegistrationStarted` |
| VotingScenarios.VoterSubmitsProposal | test/voting.js:90-100 | the first proposal is "Proposition 1" with zero votes at index 0 |
| VotingScenarios.NonVoterSubmitsProposal | test/voting.js:102-109 | a proposal from an unregistered address fails with `NotRegistered` |
| VotingScenarios.EmptyProposal | test/voting.js:111-118 | an empty description fails with `EmptyDescription` |
| VotingScenarios.ProposalBeforeSession | test/voting.js:120-125 | a proposal before registration opens fails with `WrongPhase` |
| VotingScenarios.EndProposals | test/voting.js:127-140 | closing with one proposal succeeds and the phase is `ProposalsRegistrationEnded` |
| VotingScenarios.EndProposalsWithoutProposals | test/voting.js:142-149 | closing with no proposal fails with `NoProposals` |
| VotingScenarios.StartVoting | test/voting.js:165-175 | opening the session succeeds and the phase is `VotingSessionStarted` |
| VotingScenarios.RegisteredVoterVotes | test/voting.js:177-190 | after voter 1 votes 0, the voter has voted for 0 and proposal 0 has one vote |
| VotingScenarios.NonVoterVotes | test/voting.js:192-199 | a vote from an unregistered address fails with `NotRegistered` |
| VotingScenarios.VoteTwice | test/voting.js:201-209 | a second vote fails with `AlreadyVoted` |
| VotingScenarios.VoteForMissingProposal | test/voting.js:211-218 | a vote for index 99 of three proposals fails with `NoSuchProposal` |
| VotingScenarios.VoteBeforeSession | test/voting.js:220-225 | a vote before the session opens fails with `WrongPhase` |
| VotingScenarios.EndVoting | test/voting.js:227-240 | closing the session succeeds and the phase is `VotingSessionEnded` |
| VotingScenarios.TallyAndWinner | test/voting.js:257-276 | counts [1,2,0] tally to winner 1, "Proposition 2" with 2 votes |
| VotingScenarios.TallyBeforeVotingEnds | test/voting.js:278-283 | tallying during the session fails with `WrongPhase` |
| VotingScenarios.WinnerBeforeTally | test/voting.js:285-293 | reading the winner before the tally fails with `NotTallied` |
| VotingScenarios.TieGoesToFirst | test/voting.js:295-303 | counts [1,1,0] tally to winner 0 |
| VotingScenarios.GetAllProposals | test/voting.js:315-320 | the bulk read returns two proposals, "Proposition 1" then "Proposition 2" |
| VotingScenarios.GetOneProposal | test/voting.js:322-326 | proposal 0 reads "Proposition 1" with zero votes |
| VotingScenarios.GetMissingProposal | test/voting.js:328-333 | reading proposal 99 fails with `NoSuchProposal` |
| VotingScenarios.GetVoterInformation | test/voting.js:335-339 | a registered voter reads as registered and not voted |
| VotingScenarios.CompleteWorkflow | test/voting.js:343-375 | the full election ends in `VotesTallied` with winner "Ameliorer les services" and 2 votes |

## Left out

- The Solidity source of `Voting.sol` is not part of this model. Where the tests are silent, the choices above stand in for it: the order of the guards, and the phase guard of `registerVoter`.
- The public `proposals(i)` array getter is not modelled separately. The app polls it until a read fails (src/js/app.js:181-204); `GetProposal` and `GetProposals` cover the same reads.
- Ethereum execution is not modelled:
  - gas;
  - uint256 overflow, since counts and ids are `nat` and cannot realistically approach 2^256;
  - transaction receipts;
  - the exact revert message texts.
- Concurrency is not modelled. Transactions are serialized by the chain, so each method runs atomically.
- src/js/app.js is not modelled. It covers wallet and provider bootstrapping, contract loading, DOM rendering and the alert-based handlers, and it only forwards calls to the contract.
- truffle.js is not modelled: it is network and compiler configuration.
- The test suite's asynchronous sequencing and assertion libraries are not modelled. Only the behaviour the tests assert is stated.
