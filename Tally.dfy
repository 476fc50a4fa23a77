/** The tally: the winner is the lowest-indexed proposal whose vote count is
    maximal. `Winner` is the reference definition, `ScanWinner` the single
    pass over the proposal list that the contract runs when it tallies. */
module Tally {
  import opened VotingTypes

  /** The vote counts of a proposal list, in index order. */
  function VoteCounts(ps: seq<Proposal>): (counts: seq<nat>)
    ensures |counts| == |ps|
    ensures forall i :: 0 <= i < |ps| ==> counts[i] == ps[i].voteCount
  {
    seq(|ps|, i requires 0 <= i < |ps| => ps[i].voteCount)
  }

  /** Appending a proposal appends its count. */
  lemma VoteCountsAppend(ps: seq<Proposal>, p: Proposal)
    ensures VoteCounts(ps + [p]) == VoteCounts(ps) + [p.voteCount]
  {
  }

  /** Replacing one proposal replaces its count and nothing else. */
  lemma VoteCountsUpdate(ps: seq<Proposal>, i: nat, p: Proposal)
    requires i < |ps|
    ensures VoteCounts(ps[i := p]) == VoteCounts(ps)[i := p.voteCount]
  {
  }

  /** The total number of votes. */
  function Sum(s: seq<nat>): nat
  {
    if s == [] then 0 else Sum(s[..|s| - 1]) + s[|s| - 1]
  }

  lemma SumAppend(s: seq<nat>, x: nat)
    ensures Sum(s + [x]) == Sum(s) + x
  {
    assert (s + [x])[..|s|] == s;
  }

  /** One more vote for one proposal adds exactly one to the total. */
  lemma {:induction false} SumIncrement(s: seq<nat>, i: nat)
    requires i < |s|
    ensures Sum(s[i := s[i] + 1]) == Sum(s) + 1
  {
    var n := |s|;
    var t := s[i := s[i] + 1];
    if i == n - 1 {
      assert t[..n - 1] == s[..n - 1];
    } else {
      assert t[..n - 1] == s[..n - 1][i := s[i] + 1];
      SumIncrement(s[..n - 1], i);
    }
  }

  /** `w` is a winner of `counts`: no count exceeds `counts[w]`, and every
      proposal before `w` has strictly fewer votes (ties go to the lowest index). */
  ghost predicate IsLowestMax(counts: seq<nat>, w: nat)
  {
    && w < |counts|
    && (forall j :: 0 <= j < |counts| ==> counts[j] <= counts[w])
    && (forall j :: 0 <= j < w ==> counts[j] < counts[w])
  }

  /** The winning index, defined over ever longer prefixes: a later proposal
      takes over only with strictly more votes than the winner so far. */
  function Winner(counts: seq<nat>): (w: nat)
    requires |counts| > 0
    ensures w < |counts|
  {
    if |counts| == 1 then 0
    else
      var prev := Winner(counts[..|counts| - 1]);
      if counts[|counts| - 1] > counts[prev] then |counts| - 1 else prev
  }

  lemma {:induction false} WinnerIsLowestMax(counts: seq<nat>)
    requires |counts| > 0
    ensures IsLowestMax(counts, Winner(counts))
  {
    var n := |counts|;
    if n > 1 {
      var init := counts[..n - 1];
      WinnerIsLowestMax(init);
      assert forall j :: 0 <= j < n - 1 ==> counts[j] == init[j];
    }
  }

  /** `Winner` is exactly the lowest index with a maximal count. */
  lemma WinnerCharacterized(counts: seq<nat>, w: nat)
    requires |counts| > 0
    ensures IsLowestMax(counts, w) <==> w == Winner(counts)
  {
    WinnerIsLowestMax(counts);
  }

  /** The tallies the contract's tests exercise, and three more cases of ties. */
  lemma KnownTallies()
    ensures Winner([1, 2, 0]) == 1
    ensures Winner([1, 1, 0]) == 0
    ensures Winner([0, 1, 2]) == 2
    ensures Winner([0, 0, 0]) == 0
    ensures Winner([2, 2, 1]) == 0
    ensures Winner([1, 3, 3]) == 1
  {
  }

  /** The tally loop: one pass in index order keeping the index and count of
      the best proposal so far, starting from index 0 with a count of 0; a
      proposal replaces it only with a strictly larger count. */
  method ScanWinner(proposals: seq<Proposal>) returns (w: nat)
    requires |proposals| > 0
    ensures w == Winner(VoteCounts(proposals))
    ensures IsLowestMax(VoteCounts(proposals), w)
  {
    ghost var counts := VoteCounts(proposals);
    var winningVoteCount: nat := 0;
    w := 0;
    var i := 0;
    while i < |proposals|
      invariant 0 <= i <= |proposals|
      invariant i == 0 ==> w == 0 && winningVoteCount == 0
      invariant i > 0 ==> w == Winner(counts[..i]) && winningVoteCount == counts[w]
    {
      assert counts[..i + 1][..i] == counts[..i];
      if proposals[i].voteCount > winningVoteCount {
        winningVoteCount := proposals[i].voteCount;
        w := i;
      }
      i := i + 1;
    }
    assert counts[..|proposals|] == counts;
    WinnerIsLowestMax(counts);
  }
}
