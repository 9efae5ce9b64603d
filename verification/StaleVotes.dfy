/** Runs that go wrong because a candidate acts on the reply to an election of an earlier term. */
module StaleVotes {
  import opened RaftTypes
  import opened NodeRules
  import opened Cluster
  import opened ClusterRuns
  import opened CommitRuns

  /** Node 0 campaigns twice without hearing from anyone, although node 1 voted for it in term 1. */
  lemma TwoCampaigns(g: Guards) returns (t: State, late: VoteAnswer)
    ensures Reachable(g, t) && WellFormed(t) && t.servers == {0, 1, 2} && Pending(t, late)
    ensures t.node[0] == FRESH.(currentTerm := 2, votedFor := 0, role := Candidate)
    ensures t.node[1] == FRESH.(currentTerm := 1, votedFor := 0) && t.node[2] == FRESH
  {
    var s := Start(g, {0, 1, 2});
    assert Peers(s, 0) == {1, 2};
    var s1 := Campaign(g, s, 0);
    var s2;
    s2, late := Vote(g, s1, 0, 1);
    t := Campaign(g, s2, 0);
  }

  /** A vote of term 1, given to node 0 in its first election, that has not been handled. */
  predicate Pending(s: State, m: VoteAnswer) {
    && m in s.voteAnswers && m.election == 0 && m.reply == VoteReply(1, true)
    && 0 < |s.elections| && s.elections[0].candidate == 0 && s.elections[0].term == 1
    && s.elections[0].votesReceived == 1 && m.from in s.elections[0].waiting
  }

  /** Counting the old vote makes node 0 leader of whatever term it is a candidate of. */
  lemma CountLate(g: Guards, s: State, late: VoteAnswer, log: Log) returns (t: State)
    requires !g.voteReplies && Reachable(g, s) && WellFormed(s) && s.servers == {0, 1, 2} && Pending(s, late)
    requires Idle(s.node[0], Candidate, s.node[0].currentTerm, log)
    ensures Reachable(g, t) && WellFormed(t) && t.servers == s.servers && t.node == s.node[0 := t.node[0]]
    ensures Leads(t.node[0], s.node[0].currentTerm, log, |log|, Peers(t, 0))
  {
    PeersOf(s, 0);
    t := CountVote(g, s, late);
  }

  /** Nodes 0 and 1 lead term 2 at once. */
  lemma TwoReigns(g: Guards) returns (t: State)
    requires !g.voteReplies
    ensures Reachable(g, t) && WellFormed(t) && t.servers == {0, 1, 2}
    ensures Idle(t.node[0], Leader, 2, []) && Idle(t.node[1], Leader, 2, [])
  {
    var s, late := TwoCampaigns(g);
    var u := Lead(g, s, 1, 2);
    t := CountLate(g, u, late, []);
  }

  /** They accept different commands. */
  lemma TwoLogs(g: Guards, z: Command, w: Command) returns (t: State)
    requires !g.voteReplies
    ensures Reachable(g, t) && 0 in t.node && 1 in t.node
    ensures t.node[0].log == [EntryOf(z, 2)] && t.node[1].log == [EntryOf(w, 2)]
  {
    var s := TwoReigns(g);
    var u := Accept(g, s, 0, z);
    t := Accept(g, u, 1, w);
  }

  // ---------- A usurper ----------

  /** Node 1 leads term 2 and commits two entries with node 2. */
  lemma Settle(g: Guards, s: State, w: Command) returns (t: State)
    requires Reachable(g, s) && WellFormed(s) && s.servers == {0, 1, 2}
    requires s.node[1] == FRESH.(currentTerm := 1, votedFor := 0) && s.node[2] == FRESH
    ensures Reachable(g, t) && WellFormed(t) && t.servers == s.servers && s.voteAnswers <= t.voteAnswers
    ensures s.elections <= t.elections && t.node[0] == s.node[0]
    ensures Settled(t.node[1], w) && Idle(t.node[2], Follower, 2, [EntryOf(w, 2), EntryOf(w, 2)])
  {
    var log := [EntryOf(w, 2), EntryOf(w, 2)];
    var s1 := Lead(g, s, 1, 2);
    var s2 := Accept(g, s1, 1, w);
    var s3 := Accept(g, s2, 1, w);
    var s4, m := Overwrite(g, s3, 1, 2, log);
    PeersOf(s4, 1);
    t := Note(g, s4, m);
    SoleAck(s4.node[1], Peers(s4, 1), 2, m.args, 0);
  }

  predicate Settled(n: Node, w: Command) {
    ReadyToDeliver(n) && n.currentTerm == 2 && n.log == [EntryOf(w, 2), EntryOf(w, 2)] && n.commitIndex == 1
  }

  /** Node 0 becomes leader of term 3 by the old vote, without the committed entries, and accepts a command. */
  lemma Usurp(g: Guards, z: Command, w: Command) returns (t: State)
    requires !g.voteReplies
    ensures Reachable(g, t) && WellFormed(t) && t.servers == {0, 1, 2}
    ensures Leads(t.node[0], 3, [EntryOf(z, 3)], 0, Peers(t, 0))
    ensures Settled(t.node[1], w) && Idle(t.node[2], Follower, 2, [EntryOf(w, 2), EntryOf(w, 2)])
  {
    var s, late := TwoCampaigns(g);
    var s1 := Settle(g, s, w);
    var s2 := Campaign(g, s1, 0);
    var s3 := CountLate(g, s2, late, []);
    t := Accept(g, s3, 0, z);
  }

  /** Its request cuts the log of node 1 below the commit index. */
  lemma CutCommitted(g: Guards, z: Command, w: Command) returns (t: State, step: Step)
    requires !g.voteReplies
    ensures Reachable(g, t) && WellFormed(t) && Offered(t, step) && Respects(t, step, g) && !InRange(t, step)
  {
    var s := Usurp(g, z, w);
    var m;
    t, m := Overwrite(g, s, 0, 1, [EntryOf(z, 3)]);
    step := TakeReady(1);
  }

  /** Node 1 delivers what it committed, and node 0, with the help of node 2, something else. */
  lemma LostAgreement(g: Guards, z: Command, w: Command) returns (t: State)
    requires !g.voteReplies
    ensures Reachable(g, t) && 0 in t.node && 1 in t.node
    ensures t.node[0].delivered == [CommitEntry(z, 0)] && t.node[1].delivered == [CommitEntry(w, 0)]
  {
    var s := Usurp(g, z, w);
    var s1 := DeliverFirst(g, s, 1);
    var s2, m := Overwrite(g, s1, 0, 2, [EntryOf(z, 3)]);
    PeersOf(s2, 0);
    var s3 := Note(g, s2, m);
    SoleAck(s2.node[0], Peers(s2, 0), 2, m.args, 0);
    t := DeliverFirst(g, s3, 0);
  }

  // ---------- A term that falls ----------

  /** A peer in a later term than the election does not vote, and says which term it is in. */
  lemma Refuse(g: Guards, s: State, e: nat, v: NodeId) returns (t: State, m: VoteAnswer)
    requires Reachable(g, s) && WellFormed(s) && e < |s.elections| && v in s.elections[e].waiting
    requires s.node[v].currentTerm > s.elections[e].term
    ensures Reachable(g, t) && WellFormed(t) && m.from == v && m.election == e
    ensures m.reply == VoteReply(s.node[v].currentTerm, false)
    ensures t == s.(voteRequests := t.voteRequests, voteAnswers := s.voteAnswers + {m})
  {
    var a := Claim(s.elections[e], s.node[s.elections[e].candidate].log);
    Take(g, s, SendVoteRequest(e, v));
    var u, r := Apply(s, SendVoteRequest(e, v)), VoteRequest(v, e, a);
    assert r in u.voteRequests;
    Take(g, u, RecvVoteRequest(r));
    t, m := Apply(u, RecvVoteRequest(r)), VoteAnswer(v, e, a, VoteReply(s.node[v].currentTerm, false));
    assert t.node == s.node;
  }

  /** In term 1 node 2 votes for node 0, and node 1, which is in term 2, refuses; node 0 hears of neither yet. */
  ghost predicate Unheard(g: Guards, s: State, vote: VoteAnswer, refusal: VoteAnswer) {
    && Reachable(g, s) && WellFormed(s) && s.servers == {0, 1, 2}
    && Pending(s, vote) && vote.from == 2
    && refusal in s.voteAnswers && refusal.election == 0 && refusal.from == 1 && refusal.reply == VoteReply(2, false)
    && 1 in s.elections[0].waiting
  }

  lemma Refused(g: Guards) returns (t: State, vote: VoteAnswer, refusal: VoteAnswer)
    ensures Unheard(g, t, vote, refusal)
    ensures Idle(t.node[0], Candidate, 1, []) && Idle(t.node[1], Candidate, 3, []) && Idle(t.node[2], Follower, 1, [])
  {
    var s := Start(g, {0, 1, 2});
    assert Peers(s, 0) == {1, 2};
    var s1 := Campaign(g, s, 0);
    var s2, s5;
    s2, vote := Vote(g, s1, 0, 2);
    var s3 := Campaign(g, s2, 1);
    var s4 := Campaign(g, s3, 1);
    s5, refusal := Refuse(g, s4, 0, 1);
    t := Campaign(g, s5, 1);
  }

  /** Node 1 leads term 4 and gives node 0 an entry; node 0 campaigns in term 5. */
  lemma Overtaken(g: Guards, z: Command) returns (t: State, vote: VoteAnswer, refusal: VoteAnswer)
    ensures Unheard(g, t, vote, refusal) && Idle(t.node[0], Candidate, 5, [EntryOf(z, 4)])
  {
    var s1;
    s1, vote, refusal := Refused(g);
    var s2 := Lead(g, s1, 1, 2);
    var s3 := Accept(g, s2, 1, z);
    var s4, m := Overwrite(g, s3, 1, 0, [EntryOf(z, 4)]);
    t := Campaign(g, s4, 0);
  }

  /** Now node 0 hears that node 1 was in term 2 when it refused its vote. */
  lemma Relapse(g: Guards, z: Command) returns (s: State, step: Step, vote: VoteAnswer)
    requires !g.voteReplies
    ensures Reachable(g, s) && WellFormed(s) && Enabled(s, step) && Respects(s, step, g)
    ensures 0 in s.node && s.node[0].currentTerm == 5
    ensures var t := Apply(s, step);
            t.servers == {0, 1, 2} && Idle(t.node[0], Follower, 2, [EntryOf(z, 4)]) && Pending(t, vote)
  {
    var refusal;
    s, vote, refusal := Overtaken(g, z);
    step := RecvVoteAnswer(refusal);
  }

  /** It campaigns in term 3, counts its vote of term 1, and adds an entry of term 3 after the one of term 4. */
  lemma Unsorted(g: Guards, z: Command) returns (t: State)
    requires !g.voteReplies
    ensures Reachable(g, t) && 0 in t.node && t.node[0].log == [EntryOf(z, 4), EntryOf(z, 3)]
  {
    var s, vote := Relapsed(g, z);
    var u := CountLate(g, s, vote, [EntryOf(z, 4)]);
    t := Accept(g, u, 0, z);
  }

  lemma Relapsed(g: Guards, z: Command) returns (t: State, vote: VoteAnswer)
    requires !g.voteReplies
    ensures Reachable(g, t) && WellFormed(t) && t.servers == {0, 1, 2} && Pending(t, vote)
    ensures Idle(t.node[0], Candidate, 3, [EntryOf(z, 4)])
  {
    var s, step;
    s, step, vote := Relapse(g, z);
    Take(g, s, step);
    t := Campaign(g, Apply(s, step), 0);
  }
}
