/**
 * Leader election on its own: terms, votes, ballots and wins, without logs or messages.
 *
 * A ballot is one run of an election by one candidate, counted against the configuration that the
 * candidate saw when it started. A node that stops being a candidate or leader within its term
 * forgets its vote (`Yield`), so a node may vote twice in one term; the invariants below say
 * exactly what survives of "one vote per term".
 */
module ElectionCore {
  import opened RaftTypes
  import opened Quorums

  datatype Member = Member(term: nat, votedFor: int, role: Role)

  datatype Ballot = Ballot(candidate: NodeId, term: nat, config: set<NodeId>, voters: set<NodeId>)

  datatype Vote = Vote(voter: NodeId, candidate: NodeId, term: nat)

  datatype State = State(members: map<NodeId, Member>, ballots: seq<Ballot>, votes: set<Vote>, wins: set<nat>)

  const NEWCOMER := Member(0, NOBODY, Follower)

  datatype Step =
    | Stutter
    | Join(n: NodeId)
    | Campaign(n: NodeId, config: set<NodeId>)
    | Raise(n: NodeId, term: nat)
    | Yield(n: NodeId)
    | Grant(voter: NodeId, candidate: NodeId, term: nat)
    | Count(ballot: nat, voter: NodeId)

  /** Somebody else has already won the term of node `n`. */
  ghost predicate Beaten(s: State, n: NodeId, term: nat) {
    exists w :: w in s.wins && WonBy(s, w, term) && s.ballots[w].candidate != n
  }

  predicate WonBy(s: State, w: nat, term: nat) {
    w < |s.ballots| && s.ballots[w].term == term
  }

  ghost predicate Enabled(s: State, step: Step) {
    match step
    case Stutter => true
    case Join(n) => n !in s.members
    case Campaign(n, config) => n in s.members && s.members[n].role != Leader && n in config
    case Raise(n, term) => n in s.members && term > s.members[n].term
    case Yield(n) => n in s.members && s.members[n].role != Follower && Beaten(s, n, s.members[n].term)
    case Grant(v, c, term) =>
      && v in s.members && v != c
      && (term > s.members[v].term || (term == s.members[v].term && s.members[v].votedFor in {NOBODY, c}))
    case Count(e, v) =>
      && e < |s.ballots|
      && s.ballots[e].candidate in s.members
      && s.members[s.ballots[e].candidate].role == Candidate
      && s.members[s.ballots[e].candidate].term == s.ballots[e].term
      && Vote(v, s.ballots[e].candidate, s.ballots[e].term) in s.votes
      && v in s.ballots[e].config && v !in s.ballots[e].voters
  }

  predicate Wins(b: Ballot) {
    2 * (1 + |b.voters|) > |b.config|
  }

  ghost function Apply(s: State, step: Step): State
    requires Enabled(s, step)
  {
    match step
    case Stutter => s
    case Join(n) => s.(members := s.members[n := NEWCOMER])
    case Campaign(n, config) =>
      var term := s.members[n].term + 1;
      s.(members := s.members[n := Member(term, n, Candidate)], ballots := s.ballots + [Ballot(n, term, config, {})])
    case Raise(n, term) => s.(members := s.members[n := Member(term, NOBODY, Follower)])
    case Yield(n) => s.(members := s.members[n := Member(s.members[n].term, NOBODY, Follower)])
    case Grant(v, c, term) =>
      var role := if term > s.members[v].term then Follower else s.members[v].role;
      s.(members := s.members[v := Member(term, c, role)], votes := s.votes + {Vote(v, c, term)})
    case Count(e, v) =>
      var b := s.ballots[e].(voters := s.ballots[e].voters + {v});
      var counted := s.(ballots := s.ballots[e := b]);
      if Wins(b) then
        counted.(members := s.members[b.candidate := s.members[b.candidate].(role := Leader)], wins := s.wins + {e})
      else counted
  }

  // ---------- Invariants that hold for every history of configurations ----------

  /** Everyone who is not a follower has its own vote; ballots are honest records of votes received. */
  ghost predicate BallotsSound(s: State) {
    && (forall n :: n in s.members && s.members[n].role != Follower ==> s.members[n].votedFor == n)
    && (forall e :: 0 <= e < |s.ballots| ==> BallotSound(s, s.ballots[e]))
    && (forall e, f :: 0 <= e < f < |s.ballots| && s.ballots[e].candidate == s.ballots[f].candidate
                       ==> s.ballots[e].term < s.ballots[f].term)
  }

  ghost predicate BallotSound(s: State, b: Ballot) {
    && b.candidate in s.members
    && b.term <= s.members[b.candidate].term
    && b.candidate in b.config && b.candidate !in b.voters && b.voters <= b.config
    && (forall v :: v in b.voters ==> Vote(v, b.candidate, b.term) in s.votes)
  }

  /** A vote for somebody else is never taken back within its term. */
  ghost predicate VotesKept(s: State) {
    forall v :: v in s.votes ==> VoteKept(s, v)
  }

  predicate VoteKept(s: State, v: Vote) {
    && v.voter in s.members && v.voter != v.candidate
    && v.term <= s.members[v.voter].term
    && (v.term == s.members[v.voter].term ==>
          s.members[v.voter].votedFor == v.candidate && s.members[v.voter].role == Follower)
  }

  ghost predicate VotesUnique(s: State) {
    forall v, w :: v in s.votes && w in s.votes && v.voter == w.voter && v.term == w.term ==> v == w
  }

  ghost predicate WinsSound(s: State) {
    && (forall w :: w in s.wins ==> w < |s.ballots| && Wins(s.ballots[w]) && s.ballots[w].voters != {})
    && (forall n :: n in s.members && s.members[n].role == Leader ==> Led(s, n))
  }

  ghost predicate Led(s: State, n: NodeId)
    requires n in s.members
  {
    exists w :: w in s.wins && WonBy(s, w, s.members[n].term) && s.ballots[w].candidate == n
  }

  ghost predicate Inv(s: State) {
    BallotsSound(s) && VotesKept(s) && VotesUnique(s) && WinsSound(s)
  }

  // ---------- Invariants of one term whose configurations always meet ----------

  /** A candidate that knows nobody else asks nobody, and so never wins. */
  predicate Contested(b: Ballot, term: nat) {
    b.term == term && b.config != {b.candidate}
  }

  /** Any two contested ballots of the term were counted against configurations whose majorities meet. */
  ghost predicate TermMeets(s: State, term: nat) {
    forall e, f :: (0 <= e < |s.ballots| && 0 <= f < |s.ballots|
                    && Contested(s.ballots[e], term) && Contested(s.ballots[f], term))
                   ==> AlwaysMeet(s.ballots[e].config, s.ballots[f].config)
  }

  ghost predicate OneWin(s: State, term: nat) {
    forall w, x :: w in s.wins && x in s.wins && WonBy(s, w, term) && WonBy(s, x, term) ==> w == x
  }

  /** The winner of the term leads it for as long as it stays in the term. */
  ghost predicate WinnerLeads(s: State, term: nat) {
    forall w :: w in s.wins && WonBy(s, w, term) && s.ballots[w].candidate in s.members
                && s.members[s.ballots[w].candidate].term == term
                ==> s.members[s.ballots[w].candidate].role == Leader
  }

  /** A candidate that gave up its own vote within the term did so because somebody else had won. */
  ghost predicate SelfVotesKept(s: State, term: nat) {
    && (forall e :: 0 <= e < |s.ballots| && s.ballots[e].term == term && s.ballots[e].candidate in s.members
                    && s.members[s.ballots[e].candidate].term == term
                    && s.members[s.ballots[e].candidate].role == Follower
                    ==> Beaten(s, s.ballots[e].candidate, term))
    && (forall e, v :: (0 <= e < |s.ballots| && v in s.votes && s.ballots[e].term == term == v.term
                        && s.ballots[e].candidate == v.voter) ==> Beaten(s, v.voter, term))
  }

  ghost predicate TermInv(s: State, term: nat) {
    OneWin(s, term) && WinnerLeads(s, term) && SelfVotesKept(s, term)
  }

  // ---------- Every step keeps them ----------

  lemma StepKeepsInv(s: State, step: Step)
    requires Inv(s) && Enabled(s, step)
    ensures Inv(Apply(s, step))
  {
    StepKeepsBallots(s, step);
    StepKeepsVotes(s, step);
    StepKeepsWins(s, step);
  }

  lemma StepKeepsBallots(s: State, step: Step)
    requires BallotsSound(s) && VotesKept(s) && Enabled(s, step)
    ensures BallotsSound(Apply(s, step))
  {
    var t := Apply(s, step);
    forall e | 0 <= e < |t.ballots| ensures BallotSound(t, t.ballots[e]) {
      if e < |s.ballots| {
        assert BallotSound(s, s.ballots[e]);
      }
    }
  }

  lemma StepKeepsVotes(s: State, step: Step)
    requires Inv(s) && Enabled(s, step)
    ensures VotesKept(Apply(s, step)) && VotesUnique(Apply(s, step))
  {
    var t := Apply(s, step);
    forall v | v in t.votes ensures VoteKept(t, v) {
      if v in s.votes {
        VoteStaysKept(s, step, v);
      }
    }
  }

  lemma VoteStaysKept(s: State, step: Step, v: Vote)
    requires Inv(s) && Enabled(s, step) && v in s.votes
    ensures VoteKept(Apply(s, step), v)
  {
  }

  lemma StepKeepsWins(s: State, step: Step)
    requires Inv(s) && Enabled(s, step)
    ensures WinsSound(Apply(s, step))
  {
    var t := Apply(s, step);
    WinsStay(s, step);
    forall n | n in t.members && t.members[n].role == Leader ensures Led(t, n) {
      if n in s.members && s.members[n].role == Leader {
        StaysLed(s, step, n);
      } else {
        assert step.Count? && WonBy(t, step.ballot, t.members[n].term);
      }
    }
  }

  lemma WinsStay(s: State, step: Step)
    requires WinsSound(s) && Enabled(s, step)
    ensures forall w :: w in Apply(s, step).wins ==>
              w < |Apply(s, step).ballots| && Wins(Apply(s, step).ballots[w]) && Apply(s, step).ballots[w].voters != {}
  {
  }

  lemma StaysLed(s: State, step: Step, n: NodeId)
    requires Enabled(s, step) && n in s.members && s.members[n].role == Leader && Led(s, n)
    requires n in Apply(s, step).members && Apply(s, step).members[n].role == Leader
    ensures Led(Apply(s, step), n)
  {
    var t := Apply(s, step);
    var w :| w in s.wins && WonBy(s, w, s.members[n].term) && s.ballots[w].candidate == n;
    assert w in t.wins && WonBy(t, w, t.members[n].term) && t.ballots[w].candidate == n;
  }

  lemma BeatenStays(s: State, step: Step, n: NodeId, term: nat)
    requires Inv(s) && Enabled(s, step) && Beaten(s, n, term)
    ensures Beaten(Apply(s, step), n, term)
  {
    var t := Apply(s, step);
    var w :| w in s.wins && WonBy(s, w, term) && s.ballots[w].candidate != n;
    assert w in t.wins && WonBy(t, w, term) && t.ballots[w].candidate != n;
  }

  lemma BallotsOnlyGrow(s: State, step: Step)
    requires Enabled(s, step)
    ensures |s.ballots| <= |Apply(s, step).ballots|
    ensures forall e :: 0 <= e < |s.ballots| ==>
              var b := Apply(s, step).ballots[e];
              b.candidate == s.ballots[e].candidate && b.term == s.ballots[e].term && b.config == s.ballots[e].config
  {
  }

  function Electors(b: Ballot): set<NodeId> {
    {b.candidate} + b.voters
  }

  lemma SharedElector(b: Ballot, d: Ballot) returns (v: NodeId)
    requires b.candidate in b.config && b.candidate !in b.voters && b.voters <= b.config && Wins(b)
    requires d.candidate in d.config && d.candidate !in d.voters && d.voters <= d.config && Wins(d)
    requires AlwaysMeet(b.config, d.config)
    ensures v in Electors(b) && v in Electors(d)
  {
    assert |Electors(b)| == 1 + |b.voters| && |Electors(d)| == 1 + |d.voters|;
    assert Majority(Electors(b), b.config) && Majority(Electors(d), d.config);
    v :| v in Electors(b) * Electors(d);
  }

  /** No elector of the ballot being counted helped to elect the winner of the same term. */
  lemma NoElectorInCommon(s: State, step: Step, w: nat, v: NodeId)
    requires Inv(s) && Enabled(s, step) && step.Count? && TermInv(s, s.ballots[step.ballot].term)
    requires w in s.wins && WonBy(s, w, s.ballots[step.ballot].term)
    requires v in Electors(s.ballots[w])
    ensures v !in Electors(Apply(s, step).ballots[step.ballot])
  {
    var b, d := s.ballots[step.ballot], s.ballots[w];
    assert BallotSound(s, d) && BallotSound(s, b);
    assert d.candidate != b.candidate && !Beaten(s, d.candidate, d.term);
    assert Electors(Apply(s, step).ballots[step.ballot]) == {b.candidate} + b.voters + {step.voter};
    if v == d.candidate {
      WinnerVotesForNoOther(s, w, b.candidate);
    } else if v != b.candidate {
      assert Vote(v, b.candidate, d.term) !in s.votes;
    }
  }

  lemma WinnerVotesForNoOther(s: State, w: nat, c: NodeId)
    requires Inv(s) && w in s.wins && w < |s.ballots| && TermInv(s, s.ballots[w].term)
    ensures Vote(s.ballots[w].candidate, c, s.ballots[w].term) !in s.votes
  {
    assert !Beaten(s, s.ballots[w].candidate, s.ballots[w].term);
  }

  /** The heart of election safety: a ballot cannot reach a majority in a term that is already won. */
  lemma NoSecondWin(s: State, step: Step, w: nat)
    requires Inv(s) && Enabled(s, step) && step.Count?
    requires var term := s.ballots[step.ballot].term; TermInv(s, term) && TermMeets(s, term)
    requires w in s.wins && WonBy(s, w, s.ballots[step.ballot].term)
    ensures !Wins(Apply(s, step).ballots[step.ballot])
  {
    var b, d := Apply(s, step).ballots[step.ballot], s.ballots[w];
    assert BallotSound(s, d) && BallotSound(s, s.ballots[step.ballot]);
    assert Contested(d, d.term) && Contested(s.ballots[step.ballot], d.term);
    if Wins(b) {
      var v := SharedElector(b, d);
      NoElectorInCommon(s, step, w, v);
    }
  }

  lemma StepKeepsTermInv(s: State, step: Step, term: nat)
    requires Inv(s) && TermInv(s, term) && Enabled(s, step) && TermMeets(s, term)
    ensures TermInv(Apply(s, step), term)
  {
    if step.Count? && s.ballots[step.ballot].term == term {
      forall w | w in s.wins && WonBy(s, w, term) ensures !Wins(Apply(s, step).ballots[step.ballot]) {
        NoSecondWin(s, step, w);
      }
    }
    StepKeepsOneWin(s, step, term);
    StepKeepsWinner(s, step, term);
    StepKeepsSelfVotes(s, step, term);
  }

  lemma StepKeepsOneWin(s: State, step: Step, term: nat)
    requires OneWin(s, term) && WinsSound(s) && Enabled(s, step)
    requires step.Count? && s.ballots[step.ballot].term == term ==>
               forall w :: w in s.wins && WonBy(s, w, term) ==> !Wins(Apply(s, step).ballots[step.ballot])
    ensures OneWin(Apply(s, step), term)
  {
    var t := Apply(s, step);
    forall w | w in s.wins ensures w < |s.ballots| && WonBy(t, w, term) == WonBy(s, w, term) {}
  }

  lemma StepKeepsWinner(s: State, step: Step, term: nat)
    requires Inv(s) && TermInv(s, term) && Enabled(s, step)
    ensures WinnerLeads(Apply(s, step), term)
  {
    var t := Apply(s, step);
    forall w | w in t.wins && WonBy(t, w, term) && t.ballots[w].candidate in t.members
               && t.members[t.ballots[w].candidate].term == term
      ensures t.members[t.ballots[w].candidate].role == Leader
    {
      if w in s.wins {
        assert WonBy(s, w, term) && BallotSound(s, s.ballots[w]);
      }
    }
  }

  lemma StepKeepsSelfVotes(s: State, step: Step, term: nat)
    requires Inv(s) && TermInv(s, term) && Enabled(s, step)
    ensures SelfVotesKept(Apply(s, step), term)
  {
    var t := Apply(s, step);
    BallotsOnlyGrow(s, step);
    forall n | Beaten(s, n, term) ensures Beaten(t, n, term) {
      BeatenStays(s, step, n, term);
    }
    forall e | 0 <= e < |s.ballots| ensures BallotSound(s, s.ballots[e]) {}
  }
}
