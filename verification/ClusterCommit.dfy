/** Commit indices, leaders' bookkeeping and delivery to clients. */
module ClusterCommit {
  import opened RaftTypes
  import opened NodeRules
  import opened Cluster
  import opened ClusterElections
  import opened ClusterLogs
  import opened ClusterChoice

  /** `log` up to `k` is what a leader of some term up to `bound` committed. */
  ghost predicate CommittedUpTo(s: State, log: Log, k: int, bound: nat) {
    k == -1 || (0 <= k < |log| && exists t: nat, i: nat :: CommitWitness(s, log, k, bound, t, i))
  }

  ghost predicate CommitWitness(s: State, log: Log, k: int, bound: nat, t: nat, i: nat) {
    t <= bound && k <= i && Committed(s, t, i) && Agree(log, s.reigns[t].log, k + 1)
  }

  ghost predicate NodesCommitted(s: State) {
    forall n :: n in s.node ==> NodeCommitted(s, s.node[n])
  }

  ghost predicate NodeCommitted(s: State, n: Node) {
    -1 <= n.lastApplied <= n.commitIndex < |n.log| && CommittedUpTo(s, n.log, n.commitIndex, n.currentTerm)
  }

  /** The commit index in a request lies in what it conveys, and is committed in the log of its term's leader. */
  ghost predicate RequestsCommitted(s: State) {
    forall m :: m in s.appendRequests ==> RequestCommitted(s, m.args)
  }

  ghost predicate RequestCommitted(s: State, a: AppendArgs) {
    a.term in s.reigns && CommitWithin(a) && CommittedUpTo(s, s.reigns[a.term].log, a.leaderCommit, a.term)
  }

  /** What a leader believes about a peer is in range, and acknowledged in its own term. */
  ghost predicate ProgressSound(s: State) {
    forall n, p :: n in s.node && s.node[n].role == Leader && p in Peers(s, n) ==> ProgressAt(s, n, p)
  }

  ghost predicate ProgressAt(s: State, n: NodeId, p: NodeId)
    requires n in s.node
  {
    var l := s.node[n];
    && NextInRange(l, p)
    && -1 <= Lookup(l.matchIndex, p) < |l.log|
    && (Lookup(l.matchIndex, p) >= 0 ==> Acked(s, p, l.currentTerm, Lookup(l.matchIndex, p)))
  }

  /** The client has received, and is about to receive, exactly the applied part of the log. */
  predicate DeliverySound(n: Node) {
    && n.outIndex == |n.delivered| && |n.delivered| + |n.outbox| == n.lastApplied + 1 <= |n.log|
    && (forall k :: 0 <= k < |n.outbox| ==> n.outbox[k] == n.log[n.outIndex + k])
    && (forall k :: 0 <= k < |n.delivered| ==> n.delivered[k] == CommitEntry(n.log[k].command, k))
  }

  ghost predicate DeliveriesSound(s: State) {
    forall n :: n in s.node ==> DeliverySound(s.node[n])
  }

  ghost predicate CommitInv(s: State) {
    NodesCommitted(s) && RequestsCommitted(s) && ProgressSound(s) && DeliveriesSound(s)
  }

  // ---------- Carrying facts over a step ----------

  lemma CommittedUpToStays(s: State, x: State, log: Log, longer: Log, k: int, b: nat, c: nat)
    requires Evolves(s, x) && CommittedUpTo(s, log, k, b) && b <= c && (k >= 0 ==> Agree(longer, log, k + 1))
    ensures CommittedUpTo(x, longer, k, c)
  {
    if k >= 0 {
      var t: nat, i: nat :| CommitWitness(s, log, k, b, t, i);
      CommittedStays(s, x, t, i);
      assert ReignEvolves(s.reigns[t], x.reigns[t]);
      assert CommitWitness(x, longer, k, c, t, i);
    }
  }

  /** A committed stretch is part of the log of every leader of its bound or later. */
  lemma LaterLeadersHave(s: State, log: Log, k: int, b: nat, u: nat)
    requires ReignsAgree(s) && CommittedUpTo(s, log, k, b) && k >= 0 && u in s.reigns && u >= b
    ensures Agree(log, s.reigns[u].log, k + 1)
  {
    var t: nat, i: nat :| CommitWitness(s, log, k, b, t, i);
    CommittedChoosable(s, t, i);
  }

  /** Two committed stretches never disagree. */
  lemma CommittedAgree(s: State, log: Log, k: int, b: nat, other: Log, j: int, c: nat)
    requires ReignsAgree(s) && CommittedUpTo(s, log, k, b) && CommittedUpTo(s, other, j, c) && 0 <= k <= j
    ensures Agree(log, other, k + 1)
  {
    var t: nat, i: nat :| CommitWitness(s, log, k, b, t, i);
    var u: nat, h: nat :| CommitWitness(s, other, j, c, u, h);
    CommittedChoosable(s, t, i);
    CommittedChoosable(s, u, h);
    if t < u {
      assert Agree(s.reigns[t].log, s.reigns[u].log, i + 1);
    } else if u < t {
      assert Agree(s.reigns[u].log, s.reigns[t].log, h + 1);
    }
  }

  lemma AckedBelow(s: State, q: NodeId, t: nat, i: nat, j: nat)
    requires Acked(s, q, t, i) && j <= i
    ensures Acked(s, q, t, j)
  {
    if q != s.reigns[t].leader {
      var m :| m in s.appendAnswers && AckOf(m, q, t, i);
      assert AckOf(m, q, t, j);
    }
  }

  // ---------- Append requests at a follower ----------

  /** What a request in the network means for its receiver, whose leader's log is `lead`. */
  predicate AppendReady(n: Node, lead: Log, a: AppendArgs) {
    && LogsMatch(n.log, lead) && CarriesFrom(a, lead) && CommitWithin(a)
    && -1 <= n.lastApplied <= n.commitIndex < |n.log|
    && (a.term >= n.currentTerm ==> Agree(n.log, lead, n.commitIndex + 1))
  }

  lemma AppendIsReady(s: State, m: AppendRequest)
    requires WellFormed(s) && ReignsAgree(s) && LogsSound(s) && AppendsSound(s) && NodesCommitted(s)
    requires RequestsCommitted(s) && m in s.appendRequests
    ensures AppendReady(s.node[m.to], s.reigns[m.args.term].log, m.args)
  {
    RequestFits(s, m);
    LeadersHaveCommitted(s, m.to, m.args.term);
  }

  lemma RequestFits(s: State, m: AppendRequest)
    requires WellFormed(s) && LogsSound(s) && AppendsSound(s) && m in s.appendRequests
    ensures m.to in s.node && m.args.term in s.reigns
    ensures LogsMatch(s.node[m.to].log, s.reigns[m.args.term].log) && CarriesFrom(m.args, s.reigns[m.args.term].log)
  {
    AppendMatches(s, m);
  }

  lemma LeadersHaveCommitted(s: State, n: NodeId, u: nat)
    requires ReignsAgree(s) && NodesCommitted(s) && n in s.node && u in s.reigns
    ensures var m := s.node[n];
            && -1 <= m.lastApplied <= m.commitIndex < |m.log|
            && (u >= m.currentTerm ==> Agree(m.log, s.reigns[u].log, m.commitIndex + 1))
  {
    var m := s.node[n];
    assert NodeCommitted(s, m);
    if m.commitIndex >= 0 && u >= m.currentTerm {
      LaterLeadersHave(s, m.log, m.commitIndex, m.currentTerm, u);
    }
  }

  /**
   * Handling a request changes nothing at or below the commit index, and the commit index becomes
   * the larger of the node's and the leader's: the bound by the length of the log never bites.
   */
  lemma AppendCommitMeaning(n: Node, lead: Log, a: AppendArgs)
    requires AppendReady(n, lead, a)
    ensures var (after, reply) := OnAppendEntries(n, a);
            && Agree(after.log, n.log, n.commitIndex + 1)
            && after.commitIndex
               == (if reply.success && a.leaderCommit > n.commitIndex then a.leaderCommit else n.commitIndex)
            && (reply.success ==> after.currentTerm == a.term && Agree(after.log, lead, Reach(a)))
            && after.currentTerm >= n.currentTerm && after.lastApplied == n.lastApplied
  {
    AppendKeepsCommon(n, lead, a, n.log, n.commitIndex + 1);
    AppendMeaning(n, lead, a);
    AppendLog(n, a);
  }

  lemma AppendKeepsNode(s: State, x: State, n: Node, lead: Log, a: AppendArgs)
    requires AppendReady(n, lead, a) && Evolves(s, x)
    requires CommittedUpTo(s, n.log, n.commitIndex, n.currentTerm) && CommittedUpTo(s, lead, a.leaderCommit, a.term)
    ensures NodeCommitted(x, OnAppendEntries(n, a).0)
  {
    var after := OnAppendEntries(n, a).0;
    AppendCommitMeaning(n, lead, a);
    if after.commitIndex == n.commitIndex {
      CommittedUpToStays(s, x, n.log, after.log, n.commitIndex, n.currentTerm, after.currentTerm);
    } else {
      CommittedUpToStays(s, x, lead, after.log, a.leaderCommit, a.term, after.currentTerm);
    }
  }

  // ---------- Append answers at a leader ----------

  /** A leader's new commit index is committed. */
  lemma AdvanceCommits(s: State, l: NodeId, n: Node)
    requires WellFormed(s) && l in s.servers && n.currentTerm in s.reigns
    requires s.reigns[n.currentTerm].leader == l && s.reigns[n.currentTerm].log == n.log
    requires forall p :: p in Peers(s, l) && Lookup(n.matchIndex, p) >= 0 ==>
               Acked(s, p, n.currentTerm, Lookup(n.matchIndex, p))
    requires -1 <= n.commitIndex < |n.log|
    ensures var c := NewCommitIndex(n, Peers(s, l)); c > n.commitIndex ==> Committed(s, n.currentTerm, c)
  {
    var c, t := NewCommitIndex(n, Peers(s, l)), n.currentTerm;
    if c > n.commitIndex {
      var holders := Holders(n, Peers(s, l), c);
      var q := {l} + holders;
      assert |q| == 1 + |holders|;
      PeersSize(s, l);
      forall p | p in holders ensures Acked(s, p, t, c) {
        AckedBelow(s, p, t, Lookup(n.matchIndex, p), c);
      }
      assert Commits(s, q, t, c);
    }
  }

  /** The leader that handles a current answer, with the answer's effect on its bookkeeping. */
  lemma AnswerKeepsProgress(s: State, m: AppendAnswer, p: NodeId)
    requires WellFormed(s) && LeadersLog(s) && AppendsSound(s) && AnswersSound(s) && ProgressSound(s)
    requires m in s.appendAnswers && Respects(s, RecvAppendAnswer(m), CURRENT)
    requires var n := s.node[m.args.leaderId];
             n.role == Leader && m.args.term == m.reply.term && m.reply.term <= n.currentTerm
                  && p in Peers(s, m.args.leaderId)
    ensures var n := OnAppendReply(s.node[m.args.leaderId], Peers(s, m.args.leaderId), m.from, m.args, m.reply);
            && NextInRange(n, p) && -1 <= Lookup(n.matchIndex, p) < |n.log|
            && (Lookup(n.matchIndex, p) >= 0 ==> Acked(s, p, n.currentTerm, Lookup(n.matchIndex, p)))
  {
    assert AnswerSound(s, m) && ProgressAt(s, m.args.leaderId, p);
    if p == m.from && m.reply.success && Reach(m.args) > 0 {
      assert AckOf(m, p, m.args.term, Reach(m.args) - 1);
    }
  }

  /** The node of a leader just before it advances its commit index. */
  function Noted(n: Node, peer: NodeId, a: AppendArgs): Node {
    n.(nextIndex := n.nextIndex[peer := Reach(a)], matchIndex := n.matchIndex[peer := Reach(a) - 1])
  }

  /** An answer moves the commit index only at a leader, and leaves the log alone. */
  lemma AnswerEffect(n: Node, peers: set<NodeId>, from: NodeId, a: AppendArgs, r: AppendReply)
    ensures var after := OnAppendReply(n, peers, from, a, r);
            && after.log == n.log && after.lastApplied == n.lastApplied && after.currentTerm >= n.currentTerm
            && after.commitIndex >= n.commitIndex
            && (after.commitIndex != n.commitIndex ==>
                  && n.role == Leader && a.term == r.term && r.term <= n.currentTerm && r.success
                  && after.matchIndex == Noted(n, from, a).matchIndex && after.currentTerm == n.currentTerm
                  && after.commitIndex == NewCommitIndex(Noted(n, from, a), peers))
  {
  }

  lemma NewCommitCommitted(s: State, m: AppendAnswer)
    requires WellFormed(s) && LeadersLog(s) && AppendsSound(s) && AnswersSound(s) && ProgressSound(s)
    requires m in s.appendAnswers && Respects(s, RecvAppendAnswer(m), CURRENT)
    requires var n := s.node[m.args.leaderId];
             -1 <= n.commitIndex < |n.log|
             && OnAppendReply(n, Peers(s, m.args.leaderId), m.from, m.args, m.reply).commitIndex != n.commitIndex
    ensures var n := s.node[m.args.leaderId];
            var after := OnAppendReply(n, Peers(s, m.args.leaderId), m.from, m.args, m.reply);
            Committed(s, n.currentTerm, after.commitIndex) && n.role == Leader
  {
    var l := m.args.leaderId;
    var n := s.node[l];
    var noted := Noted(n, m.from, m.args);
    AnswerEffect(n, Peers(s, l), m.from, m.args, m.reply);
    forall p | p in Peers(s, l) && Lookup(noted.matchIndex, p) >= 0
      ensures Acked(s, p, n.currentTerm, Lookup(noted.matchIndex, p))
    {
      AnswerKeepsProgress(s, m, p);
    }
    AdvanceCommits(s, l, noted);
  }

  lemma AnswerKeepsNode(s: State, x: State, m: AppendAnswer)
    requires WellFormed(s) && LeadersLog(s) && AppendsSound(s) && AnswersSound(s) && ProgressSound(s)
    requires m in s.appendAnswers && Respects(s, RecvAppendAnswer(m), CURRENT) && Evolves(s, x)
    requires NodeCommitted(s, s.node[m.args.leaderId])
    ensures NodeCommitted(x, OnAppendReply(s.node[m.args.leaderId], Peers(s, m.args.leaderId), m.from, m.args, m.reply))
  {
    var l := m.args.leaderId;
    var n := s.node[l];
    var after := OnAppendReply(n, Peers(s, l), m.from, m.args, m.reply);
    AnswerEffect(n, Peers(s, l), m.from, m.args, m.reply);
    CommittedUpToStays(s, x, n.log, n.log, n.commitIndex, n.currentTerm, after.currentTerm);
    if after.commitIndex != n.commitIndex {
      NewCommitCommitted(s, m);
      var c := after.commitIndex;
      assert CommitWitness(s, n.log, c, n.currentTerm, n.currentTerm, c);
      CommittedUpToStays(s, x, n.log, n.log, c, n.currentTerm, after.currentTerm);
    }
  }

  // ---------- All steps ----------

  /** What the steps other than the two kinds of append messages do to a node's committed state. */
  lemma OtherStepsKeepCommit(s: State, step: Step)
    requires WellFormed(s) && Enabled(s, step) && !step.RecvAppend? && !step.RecvAppendAnswer?
    ensures var n, m := s.node[Actor(s, step)], Apply(s, step).node[Actor(s, step)];
            && m.commitIndex == n.commitIndex && IsPrefix(n.log, m.log)
            && (m.lastApplied == n.lastApplied || m.lastApplied == n.commitIndex)
  {
    match step
    case RecvVoteRequest(m) => VoteRequestFrame(s.node[m.to], m.args);
    case RecvVoteAnswer(m) =>
      var b := s.elections[m.election];
      VoteReplyFrame(s.node[b.candidate], Peers(s, b.candidate), b.term, b.votesReceived, m.reply);
    case _ => QuietKeepsCommit(s, step);
  }

  lemma QuietKeepsCommit(s: State, step: Step)
    requires WellFormed(s) && Enabled(s, step)
    requires !step.RecvVoteRequest? && !step.RecvVoteAnswer? && !step.RecvAppend? && !step.RecvAppendAnswer?
    ensures var n, m := s.node[Actor(s, step)], Apply(s, step).node[Actor(s, step)];
            && m.commitIndex == n.commitIndex && IsPrefix(n.log, m.log)
            && (m.lastApplied == n.lastApplied || m.lastApplied == n.commitIndex)
  {
  }

  lemma StepKeepsNodesCommitted(s: State, step: Step)
    requires WellFormed(s) && NodesCommitted(s) && Enabled(s, step) && Evolves(s, Apply(s, step))
    requires NodeCommitted(Apply(s, step), Apply(s, step).node[Actor(s, step)])
    ensures NodesCommitted(Apply(s, step))
  {
    var x := Apply(s, step);
    ActorFrame(s, step);
    forall n | n in x.node && n != Actor(s, step) ensures NodeCommitted(x, x.node[n]) {
      QuietNodeCommitted(s, x, s.node[n], s.node[n]);
    }
  }

  lemma ActorCommitted(s: State, step: Step)
    requires WellFormed(s) && LeadersLog(s) && LogsSound(s) && AppendsSound(s) && AnswersSound(s) && ReignsAgree(s)
    requires CommitInv(s)
    requires Enabled(s, step) && Respects(s, step, CURRENT) && Evolves(s, Apply(s, step))
    ensures NodeCommitted(Apply(s, step), Apply(s, step).node[Actor(s, step)])
  {
    var x, a := Apply(s, step), Actor(s, step);
    assert NodeCommitted(s, s.node[a]);
    if step.RecvAppend? {
      var m := step.append;
      AppendIsReady(s, m);
      AppendKeepsNode(s, x, s.node[m.to], s.reigns[m.args.term].log, m.args);
    } else if step.RecvAppendAnswer? {
      AnswerKeepsNode(s, x, step.ack);
    } else {
      OtherStepsKeepCommit(s, step);
      QuietNodeCommitted(s, x, s.node[a], x.node[a]);
    }
  }

  lemma QuietNodeCommitted(s: State, x: State, n: Node, m: Node)
    requires Evolves(s, x) && NodeCommitted(s, n) && m.commitIndex == n.commitIndex && IsPrefix(n.log, m.log)
    requires m.currentTerm >= n.currentTerm && (m.lastApplied == n.lastApplied || m.lastApplied == n.commitIndex)
    ensures NodeCommitted(x, m)
  {
    CommittedUpToStays(s, x, n.log, m.log, n.commitIndex, n.currentTerm, m.currentTerm);
  }

  lemma StepKeepsRequestsCommitted(s: State, step: Step)
    requires WellFormed(s) && LeadersLog(s) && NodesCommitted(s) && RequestsCommitted(s)
    requires step.SendAppend? && step.round in s.rounds ==> s.node[step.round.leader].role == Leader
    requires Enabled(s, step) && Respects(s, step, CURRENT) && Evolves(s, Apply(s, step))
    ensures RequestsCommitted(Apply(s, step))
  {
    var x := Apply(s, step);
    forall m | m in x.appendRequests ensures RequestCommitted(x, m.args) {
      if m !in s.appendRequests {
        SentCommit(s, step, m);
      }
      RequestCommitStays(s, x, m.args);
    }
  }

  lemma RequestCommitStays(s: State, x: State, a: AppendArgs)
    requires Evolves(s, x) && RequestCommitted(s, a)
    ensures RequestCommitted(x, a)
  {
    assert ReignEvolves(s.reigns[a.term], x.reigns[a.term]);
    CommittedUpToStays(s, x, s.reigns[a.term].log, x.reigns[a.term].log, a.leaderCommit, a.term, a.term);
  }

  lemma SentCommit(s: State, step: Step, m: AppendRequest)
    requires WellFormed(s) && LeadersLog(s) && NodesCommitted(s)
    requires step.SendAppend? && step.round in s.rounds ==> s.node[step.round.leader].role == Leader
    requires Enabled(s, step) && Respects(s, step, CURRENT) && m in Apply(s, step).appendRequests
    requires m !in s.appendRequests
    ensures RequestCommitted(s, m.args)
  {
    OnlySendingAppends(s, step);
    var l := s.node[step.round.leader];
    assert NodeCommitted(s, l);
    SnapshotCarries(l, step.round.leader, step.peer, step.round.term);
  }

  lemma ProgressStays(s: State, x: State, n: NodeId, p: NodeId)
    requires Evolves(s, x) && n in s.node && n in x.node && ProgressAt(s, n, p)
    requires x.node[n].currentTerm == s.node[n].currentTerm && IsPrefix(s.node[n].log, x.node[n].log)
    requires x.node[n].nextIndex == s.node[n].nextIndex && x.node[n].matchIndex == s.node[n].matchIndex
    ensures ProgressAt(x, n, p)
  {
    var i := Lookup(s.node[n].matchIndex, p);
    if i >= 0 {
      AckedStays(s, x, p, s.node[n].currentTerm, i);
    }
  }

  /** A leader after a step that does not answer an append request was elected by it or leads on. */
  lemma LeaderFrame(s: State, step: Step, n: NodeId)
    requires WellFormed(s) && Enabled(s, step) && !step.RecvAppendAnswer? && n in s.node
    requires Apply(s, step).node[n].role == Leader
    ensures LeadsOn(s.node[n], Apply(s, step).node[n], Peers(s, n))
  {
    match step
    case RecvVoteRequest(m) => VoteRequestFrame(s.node[m.to], m.args);
    case RecvVoteAnswer(m) =>
      var b := s.elections[m.election];
      VoteReplyFrame(s.node[b.candidate], Peers(s, b.candidate), b.term, b.votesReceived, m.reply);
    case RecvAppend(m) => AppendFrame(s.node[m.to], m.args);
    case _ => LeaderSteps(s, step, n);
  }

  /** Steps of a leader, or of nobody in particular, that are not about messages received. */
  lemma LeaderSteps(s: State, step: Step, n: NodeId)
    requires WellFormed(s) && Enabled(s, step) && n in s.node
    requires !step.RecvVoteRequest? && !step.RecvVoteAnswer? && !step.RecvAppend? && !step.RecvAppendAnswer?
    requires Apply(s, step).node[n].role == Leader
    ensures LeadsOn(s.node[n], Apply(s, step).node[n], Peers(s, n))
  {
    ActorFrame(s, step);
    if n == Actor(s, step) {
      QuietActor(s, step);
    }
  }

  lemma QuietActor(s: State, step: Step)
    requires WellFormed(s) && Enabled(s, step)
    requires !step.RecvVoteRequest? && !step.RecvVoteAnswer? && !step.RecvAppend? && !step.RecvAppendAnswer?
    ensures var k, m := s.node[Actor(s, step)], Apply(s, step).node[Actor(s, step)];
            && ((m.role == k.role && m.currentTerm == k.currentTerm) || m.role == Candidate)
            && IsPrefix(k.log, m.log) && m.nextIndex == k.nextIndex && m.matchIndex == k.matchIndex
  {
  }

  ghost predicate LeadsOn(k: Node, m: Node, peers: set<NodeId>) {
    || m == StartLeader(k, peers)
    || (k.role == Leader && m.currentTerm == k.currentTerm && IsPrefix(k.log, m.log)
        && m.nextIndex == k.nextIndex && m.matchIndex == k.matchIndex)
  }

  predicate SameDelivery(n: Node, m: Node) {
    && m.commitIndex >= n.commitIndex
    && m.lastApplied == n.lastApplied && m.outbox == n.outbox && m.outIndex == n.outIndex && m.delivered == n.delivered
  }

  lemma VoteRequestFrame(n: Node, a: VoteArgs)
    ensures var m := OnRequestVote(n, a).0;
            m.log == n.log && m.commitIndex == n.commitIndex && SameDelivery(n, m)
            && (m.role == Leader ==> n.role == Leader && m == n.(votedFor := m.votedFor))
  {
  }

  lemma VoteReplyFrame(n: Node, peers: set<NodeId>, saved: nat, votes: nat, r: VoteReply)
    ensures var m := OnVoteReply(n, peers, saved, votes, r).0;
            m.log == n.log && m.commitIndex == n.commitIndex && SameDelivery(n, m)
            && (m.role == Leader ==> m == n || m == StartLeader(n, peers))
  {
  }

  lemma AppendFrame(n: Node, a: AppendArgs)
    ensures var m := OnAppendEntries(n, a).0;
            && m.lastApplied == n.lastApplied && m.outbox == n.outbox && m.outIndex == n.outIndex
            && m.delivered == n.delivered
            && (m.role == Leader ==> m == n)
  {
  }

  lemma StepKeepsProgress(s: State, step: Step)
    requires WellFormed(s) && LeadersLog(s) && AppendsSound(s) && AnswersSound(s) && ProgressSound(s)
    requires Enabled(s, step) && Respects(s, step, CURRENT) && Evolves(s, Apply(s, step))
    ensures ProgressSound(Apply(s, step))
  {
    var x, a := Apply(s, step), Actor(s, step);
    ActorFrame(s, step);
    forall n, p | n in x.node && x.node[n].role == Leader && p in Peers(x, n) ensures ProgressAt(x, n, p) {
      if n != a {
        ProgressStays(s, x, n, p);
      } else if step.RecvAppendAnswer? {
        AnswerProgress(s, step, p);
      } else {
        OtherProgress(s, step, p);
      }
    }
  }

  lemma OtherProgress(s: State, step: Step, p: NodeId)
    requires WellFormed(s) && ProgressSound(s) && Enabled(s, step) && !step.RecvAppendAnswer?
    requires Evolves(s, Apply(s, step))
    requires Apply(s, step).node[Actor(s, step)].role == Leader && p in Peers(s, Actor(s, step))
    ensures ProgressAt(Apply(s, step), Actor(s, step), p)
  {
    LeaderFrame(s, step, Actor(s, step));
    LeadingProgress(s, Apply(s, step), Actor(s, step), p);
  }

  lemma LeadingProgress(s: State, x: State, n: NodeId, p: NodeId)
    requires Evolves(s, x) && ProgressSound(s) && n in s.node && n in x.node && p in Peers(s, n)
    requires LeadsOn(s.node[n], x.node[n], Peers(s, n))
    ensures ProgressAt(x, n, p)
  {
    if x.node[n] != StartLeader(s.node[n], Peers(s, n)) {
      ProgressStays(s, x, n, p);
    }
  }

  lemma AnswerProgress(s: State, step: Step, p: NodeId)
    requires WellFormed(s) && LeadersLog(s) && AppendsSound(s) && AnswersSound(s) && ProgressSound(s)
    requires step.RecvAppendAnswer? && Enabled(s, step) && Respects(s, step, CURRENT) && Evolves(s, Apply(s, step))
    requires Apply(s, step).node[step.ack.args.leaderId].role == Leader && p in Peers(s, step.ack.args.leaderId)
    ensures ProgressAt(Apply(s, step), step.ack.args.leaderId, p)
  {
    var x, m := Apply(s, step), step.ack;
    var n := s.node[m.args.leaderId];
    if m.args.term == m.reply.term && m.reply.term <= n.currentTerm {
      AnswerKeepsProgress(s, m, p);
      var after := x.node[m.args.leaderId];
      if Lookup(after.matchIndex, p) >= 0 {
        AckedStays(s, x, p, after.currentTerm, Lookup(after.matchIndex, p));
      }
    } else {
      ProgressStays(s, x, m.args.leaderId, p);
    }
  }

  // ---------- Delivery ----------

  /** Delivery depends on a node's log only up to its commit index. */
  lemma DeliveryKept(n: Node, m: Node)
    requires DeliverySound(n) && n.lastApplied <= n.commitIndex && Agree(m.log, n.log, n.commitIndex + 1)
    requires m.lastApplied == n.lastApplied && m.outbox == n.outbox && m.outIndex == n.outIndex
    requires m.delivered == n.delivered
    ensures DeliverySound(m)
  {
  }

  lemma SenderKeepsDelivery(n: Node)
    requires DeliverySound(n) && -1 <= n.lastApplied <= n.commitIndex < |n.log|
    ensures n.pending > 0 && n.outbox == [] ==> DeliverySound(TakeCommitted(n))
    ensures n.outbox != [] ==> DeliverySound(Deliver(n))
    ensures DeliverySound(ShowLogInOutbox(n))
  {
    if n.pending > 0 && n.outbox == [] {
      TakingKeepsDelivery(n);
    }
    if n.outbox != [] {
      SendingKeepsDelivery(n);
    }
    assert n.log[n.outIndex..n.outIndex + |n.outbox|] == n.outbox;
  }

  lemma TakingKeepsDelivery(n: Node)
    requires DeliverySound(n) && -1 <= n.lastApplied <= n.commitIndex < |n.log| && n.pending > 0 && n.outbox == []
    ensures DeliverySound(TakeCommitted(n))
  {
    var m := TakeCommitted(n);
    assert m.outIndex == |n.delivered| == n.lastApplied + 1 && m.delivered == n.delivered && m.log == n.log;
    forall k | 0 <= k < |m.outbox| ensures m.outbox[k] == m.log[m.outIndex + k] {}
  }

  lemma SendingKeepsDelivery(n: Node)
    requires DeliverySound(n) && n.outbox != []
    ensures DeliverySound(Deliver(n))
  {
  }

  lemma NonSendersLeaveDelivery(s: State, step: Step)
    requires WellFormed(s) && Enabled(s, step) && !step.TakeReady? && !step.SendReady? && !step.OverwriteReady?
    requires !step.RecvAppend?
    ensures var n, m := s.node[Actor(s, step)], Apply(s, step).node[Actor(s, step)];
            SameDelivery(n, m) && IsPrefix(n.log, m.log)
  {
    match step
    case RecvVoteRequest(m) => VoteRequestFrame(s.node[m.to], m.args);
    case RecvVoteAnswer(m) =>
      var b := s.elections[m.election];
      VoteReplyFrame(s.node[b.candidate], Peers(s, b.candidate), b.term, b.votesReceived, m.reply);
    case RecvAppendAnswer(m) =>
      AnswerEffect(s.node[m.args.leaderId], Peers(s, m.args.leaderId), m.from, m.args, m.reply);
    case _ =>
  }

  lemma StepKeepsDeliveries(s: State, step: Step)
    requires WellFormed(s) && LogsSound(s) && AppendsSound(s) && ReignsAgree(s) && NodesCommitted(s)
    requires RequestsCommitted(s) && DeliveriesSound(s) && Enabled(s, step)
    ensures DeliveriesSound(Apply(s, step))
  {
    ActorFrame(s, step);
    ActorDelivery(s, step);
  }

  lemma ActorDelivery(s: State, step: Step)
    requires WellFormed(s) && Enabled(s, step)
    requires LogsSound(s) && AppendsSound(s) && ReignsAgree(s) && NodesCommitted(s)
    requires RequestsCommitted(s) && DeliveriesSound(s)
    ensures DeliverySound(Apply(s, step).node[Actor(s, step)])
  {
    var n := s.node[Actor(s, step)];
    assert NodeCommitted(s, n) && DeliverySound(n);
    if step.RecvAppend? {
      var m := step.append;
      AppendIsReady(s, m);
      AppendDelivery(n, s.reigns[m.args.term].log, m.args);
    } else {
      SenderOrQuietDelivery(s, step);
    }
  }

  lemma AppendDelivery(n: Node, lead: Log, a: AppendArgs)
    requires AppendReady(n, lead, a) && DeliverySound(n)
    ensures DeliverySound(OnAppendEntries(n, a).0)
  {
    AppendCommitMeaning(n, lead, a);
    AppendFrame(n, a);
    DeliveryKept(n, OnAppendEntries(n, a).0);
  }

  lemma SenderOrQuietDelivery(s: State, step: Step)
    requires WellFormed(s) && Enabled(s, step) && !step.RecvAppend?
    requires var n := s.node[Actor(s, step)]; DeliverySound(n) && -1 <= n.lastApplied <= n.commitIndex < |n.log|
    ensures DeliverySound(Apply(s, step).node[Actor(s, step)])
  {
    var n := s.node[Actor(s, step)];
    if step.TakeReady? || step.SendReady? || step.OverwriteReady? {
      SenderKeepsDelivery(n);
    } else {
      NonSendersLeaveDelivery(s, step);
      DeliveryKept(n, Apply(s, step).node[Actor(s, step)]);
    }
  }
}
