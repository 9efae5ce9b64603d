/**
 * Where terms come from and how nodes learn of them, in every run, whichever captured terms are
 * current: each term was opened by a node that timed out, and answers spread it.
 */
module ClusterTerms {
  import opened RaftTypes
  import opened NodeRules
  import opened Cluster
  import opened ClusterElections
  import opened ClusterLeaders

  /** Some election was started in the term; term 0 is everybody's first. */
  ghost predicate Opened(s: State, t: nat) {
    t == 0 || exists e :: 0 <= e < |s.elections| && s.elections[e].term == t
  }

  /** Every term that a node is in, or that is on its way to one, has been opened. */
  ghost predicate TermsOpened(s: State) {
    && (forall n :: n in s.node ==> Opened(s, s.node[n].currentTerm))
    && (forall r :: r in s.rounds ==> Opened(s, r.term))
    && (forall m :: m in s.voteRequests ==> Opened(s, m.args.term))
    && (forall m :: m in s.voteAnswers ==> Opened(s, m.reply.term))
    && AppendTermsOpened(s)
  }

  ghost predicate AppendTermsOpened(s: State) {
    && (forall m :: m in s.appendRequests ==> Opened(s, m.args.term))
    && (forall m :: m in s.appendAnswers ==> Opened(s, m.reply.term))
  }

  lemma OpenedStays(s: State, x: State, t: nat)
    requires Opened(s, t) && |s.elections| <= |x.elections|
    requires forall e :: 0 <= e < |s.elections| ==> x.elections[e].term == s.elections[e].term
    ensures Opened(x, t)
  {
    if t != 0 {
      var e :| 0 <= e < |s.elections| && s.elections[e].term == t;
      assert x.elections[e].term == t;
    }
  }

  // ---------- The term of a node after a message is its old one or the message's ----------

  predicate Between(after: nat, before: nat, told: nat) {
    after == before || after == told
  }

  lemma VoteRequestTerms(n: Node, a: VoteArgs)
    ensures var (m, r) := OnRequestVote(n, a);
            Between(m.currentTerm, n.currentTerm, a.term) && r.term == m.currentTerm
  {
  }

  lemma VoteReplyTerms(n: Node, peers: set<NodeId>, saved: nat, votes: nat, r: VoteReply)
    ensures Between(OnVoteReply(n, peers, saved, votes, r).0.currentTerm, n.currentTerm, r.term)
  {
  }

  lemma AppendTerms(n: Node, a: AppendArgs)
    ensures var (m, r) := OnAppendEntries(n, a);
            Between(m.currentTerm, n.currentTerm, a.term) && r.term == m.currentTerm
  {
  }

  lemma AppendReplyTerms(n: Node, peers: set<NodeId>, from: NodeId, a: AppendArgs, r: AppendReply)
    ensures Between(OnAppendReply(n, peers, from, a, r).currentTerm, n.currentTerm, r.term)
  {
  }

  // ---------- Steps ----------

  lemma StepKeepsOpened(s: State, step: Step, t: nat)
    requires WellFormed(s) && Enabled(s, step) && Opened(s, t)
    ensures Opened(Apply(s, step), t)
  {
    MessagesStay(s, step);
    OpenedStays(s, Apply(s, step), t);
  }

  /** The term of a node after any step has been opened. */
  lemma ActorOpened(s: State, step: Step)
    requires WellFormed(s) && TermsOpened(s) && Enabled(s, step)
    ensures Opened(Apply(s, step), Apply(s, step).node[Actor(s, step)].currentTerm)
  {
    var x, n := Apply(s, step), Actor(s, step);
    ActorFrame(s, step);
    StepKeepsOpened(s, step, s.node[n].currentTerm);
    match step
    case Timeout(_) => TimeoutOpens(s, step);
    case RecvVoteRequest(m) =>
      VoteRequestTerms(s.node[n], m.args);
      StepKeepsOpened(s, step, m.args.term);
    case RecvVoteAnswer(m) =>
      var b := s.elections[m.election];
      VoteReplyTerms(s.node[n], Peers(s, n), b.term, b.votesReceived, m.reply);
      StepKeepsOpened(s, step, m.reply.term);
    case RecvAppend(m) =>
      AppendTerms(s.node[n], m.args);
      StepKeepsOpened(s, step, m.args.term);
    case RecvAppendAnswer(m) =>
      AppendReplyTerms(s.node[n], Peers(s, n), m.from, m.args, m.reply);
      StepKeepsOpened(s, step, m.reply.term);
    case _ => QuietTerms(s, step);
  }

  lemma TimeoutOpens(s: State, step: Step)
    requires WellFormed(s) && Enabled(s, step) && step.Timeout?
    ensures var x := Apply(s, step);
            && x.node[step.n].currentTerm == s.node[step.n].currentTerm + 1
            && |x.elections| == |s.elections| + 1
            && x.elections[|s.elections|].candidate == step.n
            && x.elections[|s.elections|].term == x.node[step.n].currentTerm
    ensures Opened(Apply(s, step), Apply(s, step).node[step.n].currentTerm)
  {
    var x := Apply(s, step);
    assert x.elections[|s.elections|].term == x.node[step.n].currentTerm;
  }

  lemma QuietTerms(s: State, step: Step)
    requires WellFormed(s) && Enabled(s, step) && !step.Timeout?
    requires !step.RecvVoteRequest? && !step.RecvVoteAnswer? && !step.RecvAppend? && !step.RecvAppendAnswer?
    ensures Apply(s, step).node[Actor(s, step)].currentTerm == s.node[Actor(s, step)].currentTerm
  {
  }

  /** Every message that a step sends bears the term of a node, or the term captured by a round or an election. */
  lemma NewMessages(s: State, step: Step)
    requires WellFormed(s) && Enabled(s, step)
    ensures var x, n := Apply(s, step), Actor(s, step);
            && (forall r :: r in x.rounds && r !in s.rounds ==> r.term == s.node[n].currentTerm)
            && (forall m :: m in x.voteRequests && m !in s.voteRequests ==>
                  m.election < |s.elections| && m.args.term == s.elections[m.election].term)
            && (forall m :: m in x.voteAnswers && m !in s.voteAnswers ==> m.reply.term == x.node[n].currentTerm)
  {
    if step.RecvVoteRequest? {
      VoteRequestTerms(s.node[step.request.to], step.request.args);
    }
  }

  lemma NewAppends(s: State, step: Step)
    requires WellFormed(s) && Enabled(s, step)
    ensures var x, n := Apply(s, step), Actor(s, step);
            && (forall m :: m in x.appendRequests && m !in s.appendRequests ==>
                  exists r :: r in s.rounds && m.args.term == r.term)
            && (forall m :: m in x.appendAnswers && m !in s.appendAnswers ==> m.reply.term == x.node[n].currentTerm)
  {
    if step.RecvAppend? {
      AppendTerms(s.node[step.append.to], step.append.args);
    }
  }

  lemma StepKeepsAppendTerms(s: State, step: Step)
    requires WellFormed(s) && TermsOpened(s) && Enabled(s, step)
    ensures AppendTermsOpened(Apply(s, step))
  {
    var x := Apply(s, step);
    ActorOpened(s, step);
    NewAppends(s, step);
    forall m | m in x.appendRequests ensures Opened(x, m.args.term) {
      StepKeepsOpened(s, step, m.args.term);
    }
    forall m | m in x.appendAnswers ensures Opened(x, m.reply.term) {
      if m in s.appendAnswers {
        StepKeepsOpened(s, step, m.reply.term);
      }
    }
  }

  lemma StepKeepsTermsOpened(s: State, step: Step)
    requires WellFormed(s) && TermsOpened(s) && Enabled(s, step)
    ensures TermsOpened(Apply(s, step))
  {
    var x, n := Apply(s, step), Actor(s, step);
    ActorOpened(s, step);
    ActorFrame(s, step);
    NewMessages(s, step);
    StepKeepsAppendTerms(s, step);
    forall k | k in x.node ensures Opened(x, x.node[k].currentTerm) {
      if k != n {
        StepKeepsOpened(s, step, s.node[k].currentTerm);
      }
    }
    forall r | r in x.rounds ensures Opened(x, r.term) {
      StepKeepsOpened(s, step, r.term);
    }
    forall m | m in x.voteRequests ensures Opened(x, m.args.term) {
      StepKeepsOpened(s, step, m.args.term);
    }
    forall m | m in x.voteAnswers ensures Opened(x, m.reply.term) {
      if m in s.voteAnswers {
        StepKeepsOpened(s, step, m.reply.term);
      }
    }
  }

  // ---------- Runs ----------

  lemma {:induction false} RunTermsOpened(g: Guards, states: seq<State>, steps: seq<Step>, j: nat)
    requires IsRun(g, states, steps) && j < |states|
    ensures WellFormed(states[j]) && TermsOpened(states[j])
  {
    if j > 0 {
      RunTermsOpened(g, states, steps, j - 1);
      assert FollowsAt(g, states, steps, j - 1);
      ApplyKeepsWellFormed(states[j - 1], steps[j - 1]);
      StepKeepsTermsOpened(states[j - 1], steps[j - 1]);
    }
  }

  /** Step `i` of the run is node `c` timing out and so entering term `t`. */
  ghost predicate OpensAt(states: seq<State>, steps: seq<Step>, i: nat, c: NodeId, t: nat)
    requires |states| == |steps| + 1 && i < |steps|
  {
    steps[i] == Timeout(c) && c in states[i].node && states[i].node[c].role != Leader
    && states[i].node[c].currentTerm + 1 == t
  }

  /** An election was started by its candidate, which timed out in the term before. */
  lemma {:induction false} ElectionOrigin(g: Guards, states: seq<State>, steps: seq<Step>, j: nat, e: nat)
    returns (i: nat)
    requires IsRun(g, states, steps) && j < |states| && e < |states[j].elections|
    ensures i < j && OpensAt(states, steps, i, states[j].elections[e].candidate, states[j].elections[e].term)
    decreases j
  {
    var before: nat := j - 1;
    assert FollowsAt(g, states, steps, before);
    MessagesStay(states[before], steps[before]);
    if e < |states[before].elections| {
      i := ElectionOrigin(g, states, steps, before, e);
    } else {
      i := before;
      TimeoutOpens(states[before], steps[before]);
    }
  }

  /**
   * No term comes from nowhere: whatever term above 0 a node is ever in, some node timed out in the
   * term before and started an election in it.
   */
  lemma TermOrigin(g: Guards, states: seq<State>, steps: seq<Step>, j: nat, n: NodeId) returns (i: nat, c: NodeId)
    requires IsRun(g, states, steps) && j < |states| && n in states[j].node && states[j].node[n].currentTerm > 0
    ensures i < j && OpensAt(states, steps, i, c, states[j].node[n].currentTerm)
  {
    RunTermsOpened(g, states, steps, j);
    var t := states[j].node[n].currentTerm;
    var e :| 0 <= e < |states[j].elections| && states[j].elections[e].term == t;
    i := ElectionOrigin(g, states, steps, j, e);
    c := states[j].elections[e].candidate;
  }

  // ---------- Learning of later terms ----------

  /**
   * A leader whose request reaches a node of a later term u is told of it: there is then an answer
   * in the network after which, whenever it is handled below u, the leader is a follower of term u.
   */
  lemma DeposedLeaderLearns(g: Guards, states: seq<State>, steps: seq<Step>, i: nat, j: nat, m: AppendRequest)
    returns (answer: AppendAnswer)
    requires IsRun(g, states, steps) && i < j < |steps| && steps[i] == RecvAppend(m) && m.to in states[i].node
    requires states[i].node[m.to].currentTerm > m.args.term
    ensures answer in states[i + 1].appendAnswers && answer.args == m.args && answer.from == m.to
    ensures var l, u := m.args.leaderId, states[i].node[m.to].currentTerm;
            l in states[j].node && l in states[j + 1].node &&
            (steps[j] == RecvAppendAnswer(answer) && states[j].node[l].currentTerm < u ==>
               states[j + 1].node[l].role == Follower && states[j + 1].node[l].currentTerm == u)
  {
    assert FollowsAt(g, states, steps, i) && FollowsAt(g, states, steps, j);
    var u := states[i].node[m.to].currentTerm;
    answer := AppendAnswer(m.to, m.args, AppendReply(u, false));
    LaterTermAnswers(states[i].node[m.to], m.args);
    SameServers(g, states, steps, i, j);
  }

  lemma LaterTermAnswers(n: Node, a: AppendArgs)
    requires n.currentTerm > a.term
    ensures OnAppendEntries(n, a) == (n, AppendReply(n.currentTerm, false))
  {
  }

  /** So is a candidate that asks for a vote. */
  lemma LateCandidateLearns(g: Guards, states: seq<State>, steps: seq<Step>, i: nat, j: nat, m: VoteRequest)
    returns (answer: VoteAnswer)
    requires IsRun(g, states, steps) && i < j < |steps| && steps[i] == RecvVoteRequest(m) && m.to in states[i].node
    requires states[i].node[m.to].currentTerm > m.args.term
    ensures answer in states[i + 1].voteAnswers && answer.election == m.election && answer.from == m.to
    ensures var c, u := m.args.candidateId, states[i].node[m.to].currentTerm;
            c in states[j].node && c in states[j + 1].node &&
            (steps[j] == RecvVoteAnswer(answer) && states[j].node[c].role == Candidate ==>
               states[j + 1].node[c].role == Follower && states[j + 1].node[c].currentTerm == u)
  {
    assert FollowsAt(g, states, steps, i) && FollowsAt(g, states, steps, j);
    var u := states[i].node[m.to].currentTerm;
    answer := VoteAnswer(m.to, m.election, m.args, VoteReply(u, false));
    LaterTermRefuses(states[i].node[m.to], m.args);
    SameServers(g, states, steps, i, j);
    RunElections(g, states, steps, i, j);
  }

  lemma LaterTermRefuses(n: Node, a: VoteArgs)
    requires n.currentTerm > a.term
    ensures OnRequestVote(n, a) == (n, VoteReply(n.currentTerm, false))
  {
  }

  lemma {:induction false} SameServers(g: Guards, states: seq<State>, steps: seq<Step>, i: nat, j: nat)
    requires IsRun(g, states, steps) && i <= j < |states|
    ensures states[j].servers == states[i].servers && states[j].node.Keys == states[i].node.Keys
    decreases j
  {
    RunTermsOpened(g, states, steps, j);
    if i < j {
      SameServers(g, states, steps, i, j - 1);
      RunTermsOpened(g, states, steps, j - 1);
      assert FollowsAt(g, states, steps, j - 1);
      MessagesStay(states[j - 1], steps[j - 1]);
    }
  }

  lemma {:induction false} RunElections(g: Guards, states: seq<State>, steps: seq<Step>, i: nat, j: nat)
    requires IsRun(g, states, steps) && i <= j < |states|
    ensures |states[i].elections| <= |states[j].elections|
    ensures forall e :: 0 <= e < |states[i].elections| ==>
              && states[j].elections[e].candidate == states[i].elections[e].candidate
              && states[j].elections[e].term == states[i].elections[e].term
    decreases j
  {
    if i < j {
      RunElections(g, states, steps, i, j - 1);
      assert FollowsAt(g, states, steps, j - 1);
      MessagesStay(states[j - 1], steps[j - 1]);
    }
  }

  // ---------- Nobody else deposes ----------

  /** A leader stops leading only by entering a later term, which some node's timeout has opened. */
  lemma LeaderYieldsToLater(g: Guards, states: seq<State>, steps: seq<Step>, j: nat, n: NodeId)
    returns (i: nat, c: NodeId)
    requires g.voteReplies && IsRun(g, states, steps) && j < |steps| && n in states[j].node
    requires states[j].node[n].role == Leader
    requires n in states[j + 1].node && states[j + 1].node[n].role != Leader
    ensures states[j + 1].node[n].currentTerm > states[j].node[n].currentTerm
    ensures i <= j && OpensAt(states, steps, i, c, states[j + 1].node[n].currentTerm)
  {
    RunLeaderInv(g, states, steps, j);
    assert FollowsAt(g, states, steps, j);
    LeaderStepsDown(states[j], steps[j], n);
    i, c := TermOrigin(g, states, steps, j + 1, n);
  }

  lemma LeaderStepsDown(s: State, step: Step, n: NodeId)
    requires ElectionInv(s) && Enabled(s, step) && n in s.node && s.node[n].role == Leader
    requires n in Apply(s, step).node && Apply(s, step).node[n].role != Leader
    ensures Apply(s, step).node[n].currentTerm > s.node[n].currentTerm
  {
    ActorFrame(s, step);
    if step.RecvAppend? {
      LeaderReigns(s, n);
      NotToItself(s, step.append);
    }
  }

  lemma NotToItself(s: State, m: AppendRequest)
    requires ElectionInv(s) && m in s.appendRequests
    ensures m.to != s.reigns[m.args.term].leader
  {
  }
}
