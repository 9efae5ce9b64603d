/**
 * What holds in addition in every run in which append requests are built by leaders of the round's
 * own term, even if late append replies are noted: requests carry the log of their term's leader,
 * and later leaders have whatever a majority may still acknowledge.
 */
module ClusterSenders {
  import opened RaftTypes
  import opened NodeRules
  import opened Cluster
  import opened ClusterElections
  import opened ClusterLogs
  import opened ClusterChoice
  import opened ClusterLeaders

  ghost predicate LogInv(s: State) {
    LeaderInv(s) && LogsOrdered(s) && AppendsSound(s) && AnswersSound(s) && ChoiceInv(s)
  }

  lemma InitialLogInv(s: State)
    requires Initial(s)
    ensures LogInv(s)
  {
    InitialLeaderInv(s);
  }

  /** The leader that takes a snapshot for its own term still leads it. */
  lemma SenderLeads(s: State, step: Step)
    requires ElectionInv(s) && step.SendAppend? && Enabled(s, step) && Respects(s, step, SENDERS)
    ensures s.node[step.round.leader].role == Leader && s.node[step.round.leader].currentTerm == step.round.term
  {
    ReignerLeads(s, step.round.term);
  }

  lemma StepKeepsLogLayer(s: State, step: Step)
    requires LogInv(s) && Enabled(s, step) && Respects(s, step, SENDERS) && Evolves(s, Apply(s, step))
    ensures LogsOrdered(Apply(s, step)) && AppendsSound(Apply(s, step))
  {
    if step.SendAppend? {
      SenderLeads(s, step);
      SnapshotSound(s, step.round, step.peer);
    }
    StepKeepsLogsOrdered(s, step);
    StepKeepsAppendsSound(s, step);
  }

  lemma StepKeepsLogInv(s: State, step: Step)
    requires LogInv(s) && Enabled(s, step) && Respects(s, step, SENDERS)
    ensures LogInv(Apply(s, step)) && Evolves(s, Apply(s, step))
  {
    StepKeepsLeaderInv(s, step);
    StepKeepsLogLayer(s, step);
    StepKeepsAnswersSound(s, step);
    StepKeepsChoice(s, step);
  }

  lemma {:induction false} RunLogInv(g: Guards, states: seq<State>, steps: seq<Step>, i: nat)
    requires g.voteReplies && g.snapshots && IsRun(g, states, steps) && i < |states|
    ensures LogInv(states[i])
  {
    if i == 0 {
      InitialLogInv(states[0]);
    } else {
      RunLogInv(g, states, steps, i - 1);
      assert FollowsAt(g, states, steps, i - 1);
      StepKeepsLogInv(states[i - 1], steps[i - 1]);
    }
  }

  /** No node has an entry of a term that it has not reached. */
  lemma EntriesBounded(g: Guards, states: seq<State>, steps: seq<Step>, i: nat, n: NodeId)
    requires g.voteReplies && g.snapshots && IsRun(g, states, steps) && i < |states| && n in states[i].node
    ensures Bounded(states[i].node[n].log, states[i].node[n].currentTerm)
  {
    RunLogInv(g, states, steps, i);
  }

  /** The log that the leader of the request's term has at the end of the run. */
  lemma RunRequest(g: Guards, states: seq<State>, steps: seq<Step>, i: nat, n: NodeId, j: nat, m: AppendRequest)
    returns (lead: Log)
    requires g.voteReplies && g.snapshots && IsRun(g, states, steps) && i < |states| && j < |states|
    requires n in states[i].node && m in states[j].appendRequests
    ensures m.args.term in states[|steps|].reigns && lead == states[|steps|].reigns[m.args.term].log
    ensures LogsMatch(states[i].node[n].log, lead) && CarriesFrom(m.args, lead)
  {
    RunEvolves(g, states, steps, j, |steps|);
    RunLogRooted(g, states, steps, i, n);
    RunLogInv(g, states, steps, |steps|);
    lead := states[|steps|].reigns[m.args.term].log;
    SoundLogsMatch(states[|steps|], states[i].node[n].log, lead);
  }
}
