/** Nothing that is committed is forgotten by the commit sender, with or without currentness. */
module Notifications {
  import opened RaftTypes
  import opened NodeRules
  import opened Cluster
  import opened ClusterElections
  import opened ClusterCommit
  import opened ClusterTerms
  import opened ClusterSafety

  /** Whatever is committed and not taken yet has a notification waiting. */
  predicate Notified(n: Node) {
    n.commitIndex > n.lastApplied ==> n.pending > 0
  }

  lemma AppendNotifies(n: Node, a: AppendArgs)
    requires Notified(n)
    ensures Notified(OnAppendEntries(n, a).0)
  {
  }

  lemma ReplyNotifies(n: Node, peers: set<NodeId>, peer: NodeId, a: AppendArgs, r: AppendReply)
    requires Notified(n)
    ensures Notified(OnAppendReply(n, peers, peer, a, r))
  {
  }

  lemma StepNotifies(s: State, step: Step, n: NodeId)
    requires WellFormed(s) && Enabled(s, step) && n in s.node && Notified(s.node[n])
    ensures n in Apply(s, step).node && Notified(Apply(s, step).node[n])
  {
    ActorFrame(s, step);
    if n == Actor(s, step) {
      match step
      case RecvAppend(m) => AppendNotifies(s.node[n], m.args);
      case RecvAppendAnswer(m) => ReplyNotifies(s.node[n], Peers(s, n), m.from, m.args, m.reply);
      case _ => QuietNotifies(s, step);
    }
  }

  lemma QuietNotifies(s: State, step: Step)
    requires WellFormed(s) && Enabled(s, step) && !step.RecvAppend? && !step.RecvAppendAnswer?
    requires Notified(s.node[Actor(s, step)])
    ensures Notified(Apply(s, step).node[Actor(s, step)])
  {
  }

  /** At every moment of every run, whichever terms are current. */
  lemma {:induction false} RunNotifies(g: Guards, states: seq<State>, steps: seq<Step>, i: nat, n: NodeId)
    requires IsRun(g, states, steps) && i < |states| && n in states[0].node
    ensures n in states[i].node && Notified(states[i].node[n])
  {
    if i > 0 {
      RunNotifies(g, states, steps, i - 1, n);
      assert FollowsAt(g, states, steps, i - 1);
      StepNotifies(states[i - 1], steps[i - 1], n);
    }
  }

  /**
   * Notifications may be coalesced, but none is missing: a node whose commit sender is idle and has
   * no notification left has delivered all that it committed, and nothing else.
   */
  lemma IdleMeansDelivered(states: seq<State>, steps: seq<Step>, i: nat, n: NodeId)
    requires IsRun(CURRENT, states, steps) && i < |states| && n in states[i].node
    requires states[i].node[n].pending == 0 && states[i].node[n].outbox == []
    ensures |states[i].node[n].delivered| == states[i].node[n].commitIndex + 1
  {
    SameServers(CURRENT, states, steps, 0, i);
    RunNotifies(CURRENT, states, steps, i, n);
    RunNode(states, steps, i, n);
  }
}
