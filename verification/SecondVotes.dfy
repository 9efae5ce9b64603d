/**
 * What becomes of "one vote per node and term". A node that gives up being a candidate within its
 * term forgets the vote it gave to itself and may vote again, so the rule itself fails; below is
 * what holds instead.
 */
module SecondVotes {
  import opened RaftTypes
  import opened Quorums
  import opened NodeRules
  import opened Cluster
  import opened ClusterElections
  import opened ClusterLeaders
  import opened ClusterRuns
  import Core = ElectionCore

  /** In the term of election `e` its candidate, which voted for itself, also voted for another node. */
  ghost predicate VotedTwice(s: State, e: nat, m: VoteAnswer) {
    && e < |s.elections| && m in s.voteAnswers && m.reply.granted
    && m.from == s.elections[e].candidate && m.args.term == s.elections[e].term
    && m.args.candidateId != m.from
  }

  /** Nodes 0 and 1 campaign in term 1, and node 1 wins with the vote of node 2. */
  lemma Rivals() returns (t: State)
    ensures Reachable(CURRENT, t) && WellFormed(t) && t.servers == {0, 1, 2}
    ensures |t.elections| == 2 && t.elections[0].candidate == 0 && t.elections[0].term == 1
    ensures t.elections[1].candidate == 1 && t.elections[1].term == 1 && 0 in t.elections[1].waiting
    ensures t.node[0] == FRESH.(currentTerm := 1, votedFor := 0, role := Candidate)
    ensures t.node[1].role == Leader && t.node[1].currentTerm == 1 && t.node[1].log == [] && t.node[1].commitIndex == -1
    ensures Lookup(t.node[1].nextIndex, 0) == 0
  {
    var s := Start(CURRENT, {0, 1, 2});
    var u := Campaign(CURRENT, s, 0);
    t := Lead(CURRENT, u, 1, 2);
  }

  /** Node 0 yields to node 1 and then votes for it as well. */
  lemma VotingTwiceHappens() returns (t: State, e: nat, m: VoteAnswer)
    ensures Reachable(CURRENT, t) && VotedTwice(t, e, m)
  {
    var s := Rivals();
    var u := HeartbeatDethrones(s, 1, 0);
    t, m := LateVote(u);
    e := 0;
  }

  /** The vote request of node 1 reaches node 0 only now. */
  lemma LateVote(s: State) returns (t: State, m: VoteAnswer)
    requires Reachable(CURRENT, s) && WellFormed(s) && s.servers == {0, 1, 2} && |s.elections| == 2
    requires s.elections[1].candidate == 1 && s.elections[1].term == 1 && 0 in s.elections[1].waiting
    requires s.node[0] == FRESH.(currentTerm := 1) && s.node[1].log == []
    ensures Reachable(CURRENT, t) && t.elections == s.elections && m in t.voteAnswers
    ensures m == VoteAnswer(0, 1, VoteArgs(1, 1, -1, -1), VoteReply(1, true))
  {
    Take(CURRENT, s, SendVoteRequest(1, 0));
    var u := Apply(s, SendVoteRequest(1, 0));
    var r := VoteRequest(0, 1, VoteArgs(1, 1, -1, -1));
    assert r in u.voteRequests;
    Take(CURRENT, u, RecvVoteRequest(r));
    t, m := Apply(u, RecvVoteRequest(r)), VoteAnswer(0, 1, r.args, VoteReply(1, true));
  }

  /** A leader with an empty log sends a heartbeat to a candidate of its term, which yields. */
  lemma HeartbeatDethrones(s: State, l: NodeId, c: NodeId) returns (t: State)
    requires Reachable(CURRENT, s) && WellFormed(s) && l in s.servers && c in s.servers && l != c
    requires s.node[l].role == Leader && s.node[l].log == [] && Lookup(s.node[l].nextIndex, c) == 0
    requires s.node[l].commitIndex == -1
    requires s.node[c].role == Candidate && s.node[c].currentTerm == s.node[l].currentTerm && s.node[c].log == []
    requires s.node[c].commitIndex == -1
    ensures Reachable(CURRENT, t) && WellFormed(t) && t.servers == s.servers && t.elections == s.elections
    ensures t.node == s.node[c := BecomeFollower(s.node[c], s.node[c].currentTerm)]
  {
    var m;
    t, m := Replicate(CURRENT, s, l, c);
  }

  /**
   * Term `t` has a leader other than `n`, elected by a majority whose members, as long as they
   * stay in the term, have that leader for their vote.
   */
  ghost predicate LockedAgainst(s: State, t: nat, n: NodeId) {
    && t in s.reigns && s.reigns[t].leader != n && s.reigns[t].election < |s.elections|
    && Majority(Electors(s, s.reigns[t].election), s.servers)
    && forall v :: v in Electors(s, s.reigns[t].election) ==> ElectorLocked(s, t, v)
  }

  predicate ElectorLocked(s: State, t: nat, v: NodeId)
    requires t in s.reigns
  {
    && v in s.node && s.node[v].currentTerm >= t
    && (s.node[v].currentTerm == t ==> s.node[v].votedFor == s.reigns[t].leader)
  }

  /** A second vote comes too late to matter: before it is given, its term is locked. */
  lemma SecondVoteComesLate(g: Guards, states: seq<State>, steps: seq<Step>, i: nat, e: nat, m: VoteAnswer)
    requires g.voteReplies && IsRun(g, states, steps) && i < |steps|
    requires VotedTwice(states[i + 1], e, m) && m !in states[i].voteAnswers
    ensures LockedAgainst(states[i], m.args.term, m.from)
  {
    RunLeaderInv(g, states, steps, i);
    assert FollowsAt(g, states, steps, i);
    BeatenBeforeSecondVote(states[i], steps[i], e, m);
    ReignLocked(states[i], m.args.term);
  }

  lemma ReignLocked(s: State, t: nat)
    requires ElectionInv(s) && t in s.reigns
    ensures s.reigns[t].election < |s.elections| && Majority(Electors(s, s.reigns[t].election), s.servers)
    ensures forall v :: v in Electors(s, s.reigns[t].election) ==> ElectorLocked(s, t, v)
  {
    ElectorsReached(s, t);
    forall v | v in Electors(s, s.reigns[t].election) ensures ElectorLocked(s, t, v) {
      ElectorKeepsVote(s, t, v);
    }
  }

  /**
   * When a node that campaigned in a term votes in it a second time: exactly when it is a follower
   * still in that term, has no vote for anybody else, and the candidate's log is recent enough. And
   * then the term is locked.
   */
  lemma SecondVoteIff(g: Guards, states: seq<State>, steps: seq<Step>, i: nat, e: nat, r: VoteRequest)
    requires g.voteReplies && IsRun(g, states, steps) && i < |states|
    requires r in states[i].voteRequests && e < |states[i].elections|
    requires states[i].elections[e].candidate == r.to && states[i].elections[e].term == r.args.term
    ensures r.to in states[i].node
    ensures var n := states[i].node[r.to];
            OnRequestVote(n, r.args).1.granted
            <==> && n.currentTerm == r.args.term && n.role == Follower
                 && (n.votedFor == NOBODY || n.votedFor == r.args.candidateId) && UpToDate(r.args, n.log)
    ensures OnRequestVote(states[i].node[r.to], r.args).1.granted ==> LockedAgainst(states[i], r.args.term, r.to)
  {
    RunLeaderInv(g, states, steps, i);
    AskedCampaigner(states[i], e, r);
    if OnRequestVote(states[i].node[r.to], r.args).1.granted {
      FollowerBeaten(states[i], e);
      ReignLocked(states[i], r.args.term);
    }
  }

  /**
   * A node that is asked in a term in which it campaigned has reached it, and keeps its own vote
   * unless it is a follower.
   */
  lemma AskedCampaigner(s: State, e: nat, r: VoteRequest)
    requires ElectionInv(s) && r in s.voteRequests && e < |s.elections|
    requires s.elections[e].candidate == r.to && s.elections[e].term == r.args.term
    ensures r.to in s.node && r.args.candidateId != r.to && s.node[r.to].currentTerm >= r.args.term
    ensures s.node[r.to].role != Follower ==> s.node[r.to].votedFor == r.to
  {
    CandidateReached(s, e);
    var c := CoreOf(s);
    assert c.members[r.to] == MemberOf(s.node[r.to]);
  }

  /** A node that is a follower in a term in which it campaigned was beaten by another. */
  lemma FollowerBeaten(s: State, e: nat)
    requires ElectionInv(s) && e < |s.elections| && s.elections[e].candidate in s.node
    requires var n := s.node[s.elections[e].candidate]; n.role == Follower && n.currentTerm == s.elections[e].term
    ensures var b := s.elections[e]; b.term in s.reigns && s.reigns[b.term].leader != b.candidate
  {
    var c, b := CoreOf(s), s.elections[e];
    assert c.ballots[e].candidate == b.candidate && c.ballots[e].term == b.term;
    assert c.members[b.candidate] == MemberOf(s.node[b.candidate]);
    assert Core.TermInv(c, b.term);
    assert Core.Beaten(c, b.candidate, b.term);
    var w :| w in c.wins && Core.WonBy(c, w, b.term) && c.ballots[w].candidate != b.candidate;
    var u :| u in s.reigns && s.reigns[u].election == w;
  }

  /** Only a vote request is answered with a vote. */
  lemma OnlyRequestsAnswered(s: State, step: Step, m: VoteAnswer)
    requires WellFormed(s) && Enabled(s, step) && m in Apply(s, step).voteAnswers && m !in s.voteAnswers
    ensures step.RecvVoteRequest? && step.request == VoteRequest(m.from, m.election, m.args)
    ensures m.reply == OnRequestVote(s.node[m.from], m.args).1 && Apply(s, step).elections == s.elections
  {
  }

  lemma BeatenBeforeSecondVote(s: State, step: Step, e: nat, m: VoteAnswer)
    requires ElectionInv(s) && Enabled(s, step) && VotedTwice(Apply(s, step), e, m) && m !in s.voteAnswers
    ensures m.args.term in s.reigns && s.reigns[m.args.term].leader != m.from
  {
    OnlyRequestsAnswered(s, step, m);
    AskedCampaigner(s, e, step.request);
    FollowerBeaten(s, e);
  }

  lemma ElectorKeepsVote(s: State, t: nat, v: NodeId)
    requires ElectionInv(s) && t in s.reigns && v in Electors(s, s.reigns[t].election) && v in s.node
    ensures s.node[v].currentTerm == t ==> s.node[v].votedFor == s.reigns[t].leader
  {
    var c, w := CoreOf(s), s.reigns[t].election;
    ReignerLeads(s, t);
    assert Core.BallotSound(c, c.ballots[w]) && c.members[v] == MemberOf(s.node[v]);
  }

  /** Of the votes for others, a node gives at most one per term. */
  lemma OneVoteForOthers(g: Guards, states: seq<State>, steps: seq<Step>, i: nat, m: VoteAnswer, o: VoteAnswer)
    requires g.voteReplies && IsRun(g, states, steps) && i < |states|
    requires m in states[i].voteAnswers && o in states[i].voteAnswers
    requires m.reply.granted && o.reply.granted && m.from == o.from && m.args.term == o.args.term
    ensures m.args.candidateId == o.args.candidateId && m.args.candidateId != m.from
  {
    RunLeaderInv(g, states, steps, i);
    SameVote(states[i], m, o);
  }

  lemma SameVote(s: State, m: VoteAnswer, o: VoteAnswer)
    requires ElectionInv(s) && m in s.voteAnswers && o in s.voteAnswers
    requires m.reply.granted && o.reply.granted && m.from == o.from && m.args.term == o.args.term
    ensures VoteOf(m) == VoteOf(o) && m.args.candidateId != m.from
  {
    var c := CoreOf(s);
    assert VoteOf(m) in c.votes && VoteOf(o) in c.votes;
  }
}
