/** The safety of the cluster over whole runs, under the currentness of all three captured terms. */
module ClusterSafety {
  import opened RaftTypes
  import opened NodeRules
  import opened Cluster
  import opened ClusterElections
  import opened ClusterLogs
  import opened ClusterChoice
  import opened ClusterCommit
  import opened ClusterLeaders
  import opened ClusterSenders

  ghost predicate Inv(s: State) {
    LogInv(s) && CommitInv(s)
  }

  lemma InitialInv(s: State)
    requires Initial(s)
    ensures Inv(s)
  {
    InitialLogInv(s);
  }

  lemma StepKeepsCommitLayer(s: State, step: Step)
    requires Inv(s) && Enabled(s, step) && Respects(s, step, CURRENT) && Evolves(s, Apply(s, step))
    ensures CommitInv(Apply(s, step))
  {
    if step.SendAppend? {
      SenderLeads(s, step);
    }
    ActorCommitted(s, step);
    StepKeepsNodesCommitted(s, step);
    StepKeepsRequestsCommitted(s, step);
    StepKeepsProgress(s, step);
    StepKeepsDeliveries(s, step);
  }

  /** The invariant is inductive. */
  lemma StepKeepsInv(s: State, step: Step)
    requires Inv(s) && Enabled(s, step) && Respects(s, step, CURRENT)
    ensures Inv(Apply(s, step)) && Evolves(s, Apply(s, step))
  {
    StepKeepsLogInv(s, step);
    StepKeepsCommitLayer(s, step);
  }

  // ---------- Runs ----------

  lemma {:induction false} RunInv(states: seq<State>, steps: seq<Step>, i: nat)
    requires IsRun(CURRENT, states, steps) && i < |states|
    ensures Inv(states[i])
  {
    if i == 0 {
      InitialInv(states[0]);
    } else {
      RunInv(states, steps, i - 1);
      assert FollowsAt(CURRENT, states, steps, i - 1);
      StepKeepsInv(states[i - 1], steps[i - 1]);
    }
  }

  /** The committed state of a node, and what it delivered, at one moment of a run. */
  lemma RunNode(states: seq<State>, steps: seq<Step>, i: nat, n: NodeId)
    requires IsRun(CURRENT, states, steps) && i < |states| && n in states[i].node
    ensures NodeCommitted(states[i], states[i].node[n]) && DeliverySound(states[i].node[n])
  {
    RunInv(states, steps, i);
  }

  lemma RunReignsAgree(states: seq<State>, steps: seq<Step>, i: nat)
    requires IsRun(CURRENT, states, steps) && i < |states|
    ensures ReignsAgree(states[i])
  {
    RunInv(states, steps, i);
  }

  /** What a node has committed is still committed at any later moment. */
  lemma RunCommitted(states: seq<State>, steps: seq<Step>, i: nat, j: nat, a: NodeId)
    requires IsRun(CURRENT, states, steps) && i <= j < |states| && a in states[i].node
    ensures var n := states[i].node[a];
            -1 <= n.commitIndex < |n.log| && CommittedUpTo(states[j], n.log, n.commitIndex, n.currentTerm)
  {
    RunNode(states, steps, i, a);
    RunEvolves(CURRENT, states, steps, i, j);
    var n := states[i].node[a];
    CommittedUpToStays(states[i], states[j], n.log, n.log, n.commitIndex, n.currentTerm, n.currentTerm);
  }

  // ---------- Theorems ----------

  /** Whoever leads a later term from then on has what a node has committed. */
  lemma FutureLeadersComplete(states: seq<State>, steps: seq<Step>, i: nat, j: nat, a: NodeId, b: NodeId)
    requires IsRun(CURRENT, states, steps) && i <= j < |states|
    requires a in states[i].node && b in states[j].node
    requires states[j].node[b].role == Leader && states[j].node[b].currentTerm > states[i].node[a].currentTerm
    ensures Agree(states[i].node[a].log, states[j].node[b].log, states[i].node[a].commitIndex + 1)
  {
    RunCommitted(states, steps, i, j, a);
    RunLeader(CURRENT, states, steps, j, b);
    RunReignsHave(states, steps, i, j, a, states[j].node[b].currentTerm);
  }

  /** The leaders of later terms so far have what a node had committed. */
  lemma RunReignsHave(states: seq<State>, steps: seq<Step>, i: nat, j: nat, a: NodeId, u: nat)
    requires IsRun(CURRENT, states, steps) && i <= j < |states| && a in states[i].node
    requires u in states[j].reigns && u > states[i].node[a].currentTerm
    ensures Agree(states[i].node[a].log, states[j].reigns[u].log, states[i].node[a].commitIndex + 1)
  {
    RunCommitted(states, steps, i, j, a);
    RunReignsAgree(states, steps, j);
    var n := states[i].node[a];
    if n.commitIndex >= 0 {
      LaterLeadersHave(states[j], n.log, n.commitIndex, n.currentTerm, u);
    }
  }

  /** What any two nodes have committed, at any two moments, never disagrees. */
  lemma CommitsAgree(states: seq<State>, steps: seq<Step>, i: nat, j: nat, a: NodeId, b: NodeId)
    requires IsRun(CURRENT, states, steps) && i <= j < |states|
    requires a in states[i].node && b in states[j].node
    ensures var n, m := states[i].node[a], states[j].node[b];
            && -1 <= n.commitIndex < |n.log| && -1 <= m.commitIndex < |m.log|
            && Agree(n.log, m.log, Min(n.commitIndex, m.commitIndex) + 1)
  {
    RunCommitted(states, steps, i, j, a);
    RunCommitted(states, steps, j, j, b);
    RunReignsAgree(states, steps, j);
    var n, m := states[i].node[a], states[j].node[b];
    if 0 <= n.commitIndex <= m.commitIndex {
      CommittedAgree(states[j], n.log, n.commitIndex, n.currentTerm, m.log, m.commitIndex, m.currentTerm);
    } else if 0 <= m.commitIndex < n.commitIndex {
      CommittedAgree(states[j], m.log, m.commitIndex, m.currentTerm, n.log, n.commitIndex, n.currentTerm);
    }
  }

  /** One list of deliveries continues the other. */
  predicate Continues(a: seq<CommitEntry>, b: seq<CommitEntry>) {
    |a| <= |b| && forall k :: 0 <= k < |a| ==> a[k] == b[k]
  }

  /**
   * State machine safety: of what any two nodes have delivered to their clients, at any two
   * moments, one continues the other.
   */
  lemma StateMachineSafety(states: seq<State>, steps: seq<Step>, i: nat, j: nat, a: NodeId, b: NodeId)
    requires IsRun(CURRENT, states, steps) && i <= j < |states|
    requires a in states[i].node && b in states[j].node
    ensures Continues(states[i].node[a].delivered, states[j].node[b].delivered)
            || Continues(states[j].node[b].delivered, states[i].node[a].delivered)
  {
    RunNode(states, steps, i, a);
    RunNode(states, steps, j, b);
    CommitsAgree(states, steps, i, j, a, b);
    DeliveriesAgree(states[i].node[a], states[j].node[b]);
  }

  lemma DeliveriesAgree(n: Node, m: Node)
    requires DeliverySound(n) && DeliverySound(m)
    requires n.lastApplied <= n.commitIndex < |n.log| && m.lastApplied <= m.commitIndex < |m.log|
    requires Agree(n.log, m.log, Min(n.commitIndex, m.commitIndex) + 1)
    ensures Continues(n.delivered, m.delivered) || Continues(m.delivered, n.delivered)
  {
  }

  /** The k-th delivery has index k and the command at position k of the committed log: no gap, no repetition. */
  lemma DeliveryExact(states: seq<State>, steps: seq<Step>, i: nat, n: NodeId, k: nat)
    requires IsRun(CURRENT, states, steps) && i < |states| && n in states[i].node
    requires k < |states[i].node[n].delivered|
    ensures k <= states[i].node[n].commitIndex < |states[i].node[n].log|
    ensures states[i].node[n].delivered[k] == CommitEntry(states[i].node[n].log[k].command, k)
  {
    RunNode(states, steps, i, n);
  }

  /** Writing the log's memory through a slice that is being delivered never changes that slice. */
  lemma SharedSliceKeepsValues(states: seq<State>, steps: seq<Step>, i: nat, n: NodeId)
    requires IsRun(CURRENT, states, steps) && i < |states| && n in states[i].node
    ensures OutboxInRange(states[i].node[n]) && ShowLogInOutbox(states[i].node[n]) == states[i].node[n]
    ensures var m := states[i].node[n]; m.outbox == m.log[m.outIndex..m.outIndex + |m.outbox|]
  {
    RunNode(states, steps, i, n);
    var m := states[i].node[n];
    assert m.log[m.outIndex..m.outIndex + |m.outbox|] == m.outbox;
  }

  predicate CommitKept(n: Node, m: Node) {
    m.commitIndex >= n.commitIndex && Agree(m.log, n.log, n.commitIndex + 1)
  }

  lemma CommitRises(s: State, step: Step)
    requires WellFormed(s) && ReignsAgree(s) && LogsSound(s) && AppendsSound(s) && NodesCommitted(s)
    requires RequestsCommitted(s) && Enabled(s, step)
    ensures CommitKept(s.node[Actor(s, step)], Apply(s, step).node[Actor(s, step)])
  {
    if step.RecvAppend? {
      AppendRises(s, step.append);
    } else {
      assert NodeCommitted(s, s.node[Actor(s, step)]);
      OthersKeepCommit(s, step);
    }
  }

  lemma AppendRises(s: State, m: AppendRequest)
    requires WellFormed(s) && ReignsAgree(s) && LogsSound(s) && AppendsSound(s) && NodesCommitted(s)
    requires RequestsCommitted(s) && m in s.appendRequests
    ensures CommitKept(s.node[m.to], OnAppendEntries(s.node[m.to], m.args).0)
  {
    AppendIsReady(s, m);
    AppendCommitMeaning(s.node[m.to], s.reigns[m.args.term].log, m.args);
  }

  lemma OthersKeepCommit(s: State, step: Step)
    requires WellFormed(s) && Enabled(s, step) && !step.RecvAppend?
    requires s.node[Actor(s, step)].commitIndex < |s.node[Actor(s, step)].log|
    ensures CommitKept(s.node[Actor(s, step)], Apply(s, step).node[Actor(s, step)])
  {
    if step.RecvAppendAnswer? {
      var m := step.ack;
      AnswerEffect(s.node[m.args.leaderId], Peers(s, m.args.leaderId), m.from, m.args, m.reply);
    } else {
      OtherStepsKeepCommit(s, step);
    }
  }

  /** Committed prefixes are immutable and commit indices never fall. */
  lemma {:induction false} CommittedPrefixImmutable(states: seq<State>, steps: seq<Step>, i: nat, j: nat, n: NodeId)
    requires IsRun(CURRENT, states, steps) && i <= j < |states| && n in states[i].node
    ensures n in states[j].node
    ensures states[i].node[n].commitIndex <= states[j].node[n].commitIndex < |states[j].node[n].log|
    ensures Agree(states[j].node[n].log, states[i].node[n].log, states[i].node[n].commitIndex + 1)
    decreases j
  {
    if i == j {
      RunNode(states, steps, i, n);
    } else {
      CommittedPrefixImmutable(states, steps, i, j - 1, n);
      RunCommitRises(states, steps, j - 1, n);
    }
  }

  lemma RunCommitRises(states: seq<State>, steps: seq<Step>, i: nat, n: NodeId)
    requires IsRun(CURRENT, states, steps) && i < |steps| && n in states[i].node
    ensures n in states[i + 1].node
    ensures states[i].node[n].commitIndex <= states[i + 1].node[n].commitIndex < |states[i + 1].node[n].log|
    ensures Agree(states[i + 1].node[n].log, states[i].node[n].log, states[i].node[n].commitIndex + 1)
  {
    RunInv(states, steps, i);
    assert FollowsAt(CURRENT, states, steps, i);
    NodeKeepsCommit(states[i], steps[i], n);
    RunNode(states, steps, i + 1, n);
  }

  lemma NodeKeepsCommit(s: State, step: Step, n: NodeId)
    requires WellFormed(s) && ReignsAgree(s) && LogsSound(s) && AppendsSound(s) && NodesCommitted(s)
    requires RequestsCommitted(s) && Enabled(s, step)
    requires n in s.node
    ensures n in Apply(s, step).node && CommitKept(s.node[n], Apply(s, step).node[n])
  {
    CommitRises(s, step);
    ActorFrame(s, step);
  }

  /** Every index and slice expression of a step is in range, in every reachable state. */
  lemma IndexSafety(states: seq<State>, steps: seq<Step>, i: nat, step: Step)
    requires IsRun(CURRENT, states, steps) && i < |states|
    requires WellFormed(states[i]) && Offered(states[i], step) && Respects(states[i], step, CURRENT)
    ensures InRange(states[i], step)
  {
    RunInv(states, steps, i);
    match step
    case SendAppend(r, p) => SendInRange(states[i], r, p);
    case RecvAppend(m) => RequestFits(states[i], m);
    case RecvAppendAnswer(m) => RunNode(states, steps, i, m.args.leaderId);
    case TakeReady(n) => RunNode(states, steps, i, n);
    case OverwriteReady(n) => RunNode(states, steps, i, n);
    case _ =>
  }

  lemma SendInRange(s: State, r: Round, p: NodeId)
    requires ElectionInv(s) && ProgressSound(s) && r in s.rounds && p in Peers(s, r.leader)
    requires s.node[r.leader].currentTerm == r.term
    ensures NextInRange(s.node[r.leader], p)
  {
    ReignerLeads(s, r.term);
    assert ProgressAt(s, r.leader, p);
  }

  /** The bounds behind it: of a leader's two maps, and of every node's two indices. */
  lemma IndicesBounded(states: seq<State>, steps: seq<Step>, i: nat, n: NodeId, p: NodeId)
    requires IsRun(CURRENT, states, steps) && i < |states| && n in states[i].node && p in Peers(states[i], n)
    ensures var m := states[i].node[n];
            && -1 <= m.lastApplied <= m.commitIndex < |m.log|
            && (m.role == Leader ==> 0 <= Lookup(m.nextIndex, p) <= |m.log| && -1 <= Lookup(m.matchIndex, p) < |m.log|)
  {
    RunNode(states, steps, i, n);
    if states[i].node[n].role == Leader {
      RunInv(states, steps, i);
      assert ProgressAt(states[i], n, p);
    }
  }

  /**
   * The follower's shortcut for its commit index is the rule of Figure 2 of the Raft paper: after
   * an accepted request that raises it, it equals the leader's, which is the minimum with the index
   * of the last new entry.
   */
  lemma CommitShortcut(states: seq<State>, steps: seq<Step>, i: nat, m: AppendRequest)
    requires IsRun(CURRENT, states, steps) && i < |states| && m in states[i].appendRequests
    ensures m.args.leaderCommit <= m.args.prevLogIndex + |m.args.entries|
    ensures m.to in states[i].node &&
            var (n, (after, reply)) := (states[i].node[m.to], OnAppendEntries(states[i].node[m.to], m.args));
            reply.success && m.args.leaderCommit > n.commitIndex ==>
              && after.commitIndex == m.args.leaderCommit
              && after.commitIndex == Min(m.args.leaderCommit, |after.log| - 1)
              && after.commitIndex == Min(m.args.leaderCommit, m.args.prevLogIndex + |m.args.entries|)
  {
    RunInv(states, steps, i);
    RequestCommits(states[i], m);
  }

  lemma RequestCommits(s: State, m: AppendRequest)
    requires WellFormed(s) && ReignsAgree(s) && LogsSound(s) && AppendsSound(s) && NodesCommitted(s)
    requires RequestsCommitted(s) && m in s.appendRequests
    ensures m.to in s.node && m.args.leaderCommit < Reach(m.args)
    ensures var (after, reply) := OnAppendEntries(s.node[m.to], m.args);
            reply.success && m.args.leaderCommit > s.node[m.to].commitIndex ==>
              after.commitIndex == m.args.leaderCommit < |after.log|
  {
    AppendIsReady(s, m);
    AppendCommitMeaning(s.node[m.to], s.reigns[m.args.term].log, m.args);
  }
}
