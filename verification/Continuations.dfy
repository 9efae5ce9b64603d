/** Continuing a run from any state that it has reached, with all captured terms current. */
module Continuations {
  import opened RaftTypes
  import opened NodeRules
  import opened Cluster
  import opened ClusterElections
  import opened ClusterCommit
  import opened ClusterLeaders
  import opened ClusterSafety
  import opened ClusterRuns
  import opened ClusterTerms
  import opened CommitComplete
  import opened Notifications

  ghost predicate AlongBy(states: seq<State>, steps: seq<Step>, i: nat, s: State, t: State) {
    IsRun(CURRENT, states, steps) && i < |states| && states[i] == s && states[|steps|] == t
  }

  /** Some run passes through `s` and ends in `t`. */
  ghost predicate Along(s: State, t: State) {
    WellFormed(t) && exists states, steps, i :: AlongBy(states, steps, i, s, t)
  }

  lemma AlongStart(s: State)
    requires Reachable(CURRENT, s)
    ensures Along(s, s)
  {
    var states, steps :| Arrives(CURRENT, states, steps, s);
    RunInv(states, steps, |steps|);
    assert AlongBy(states, steps, |steps|, s, s);
  }

  lemma Invariants(s: State, t: State)
    requires Along(s, t)
    ensures Inv(t) && AllReached(t) && Reachable(CURRENT, t)
    ensures forall n :: n in t.node ==> Notified(t.node[n])
  {
    var states, steps, i :| AlongBy(states, steps, i, s, t);
    RunInv(states, steps, |steps|);
    RunAllReached(states, steps, |steps|);
    assert Arrives(CURRENT, states, steps, t);
    SameServers(CURRENT, states, steps, 0, |steps|);
    forall n | n in t.node ensures Notified(t.node[n]) {
      RunNotifies(CURRENT, states, steps, |steps|, n);
    }
  }

  /** The run goes on with any step that is offered and current; that it is in range goes without saying. */
  lemma Go(s: State, t: State, step: Step)
    requires Along(s, t) && Offered(t, step) && Respects(t, step, CURRENT)
    ensures Enabled(t, step) && Along(s, Apply(t, step))
  {
    var states, steps, i :| AlongBy(states, steps, i, s, t);
    IndexSafety(states, steps, |steps|, step);
    var x := Apply(t, step);
    ApplyKeepsWellFormed(t, step);
    Extend(CURRENT, states, steps, t, step, x);
    assert AlongBy(states + [x], steps + [step], i, s, x);
  }

  // ---------- What has been delivered stays ----------

  lemma StepDelivers(s: State, step: Step, n: NodeId)
    requires WellFormed(s) && Enabled(s, step) && n in s.node
    ensures n in Apply(s, step).node && s.node[n].delivered <= Apply(s, step).node[n].delivered
  {
    ActorFrame(s, step);
    if step.RecvAppend? {
      AppendFrame(s.node[step.append.to], step.append.args);
    } else if !step.TakeReady? && !step.SendReady? && !step.OverwriteReady? {
      NonSendersLeaveDelivery(s, step);
    }
  }

  lemma {:induction false} RunDelivers(g: Guards, states: seq<State>, steps: seq<Step>, i: nat, j: nat, n: NodeId)
    requires IsRun(g, states, steps) && i <= j < |states| && n in states[i].node
    ensures n in states[j].node && states[i].node[n].delivered <= states[j].node[n].delivered
    decreases j
  {
    if i < j {
      RunDelivers(g, states, steps, i, j - 1, n);
      assert FollowsAt(g, states, steps, j - 1);
      StepDelivers(states[j - 1], steps[j - 1], n);
    }
  }

  lemma DeliveredStays(s: State, t: State, n: NodeId)
    requires Along(s, t) && n in s.node
    ensures n in t.node && s.node[n].delivered <= t.node[n].delivered
  {
    var states, steps, i :| AlongBy(states, steps, i, s, t);
    RunDelivers(CURRENT, states, steps, i, |steps|, n);
  }

  // ---------- Elections ----------

  /** Peer `v` is asked for its vote in election `e`, and answers. */
  lemma Ask(s: State, t: State, e: nat, v: NodeId) returns (x: State, m: VoteAnswer)
    requires Along(s, t) && e < |t.elections| && v in t.elections[e].waiting
    ensures Along(s, x) && x.servers == t.servers && x.elections == t.elections && m in x.voteAnswers
    ensures var a := Claim(t.elections[e], t.node[t.elections[e].candidate].log);
            && m == VoteAnswer(v, e, a, OnRequestVote(t.node[v], a).1)
            && x.node == t.node[v := OnRequestVote(t.node[v], a).0]
  {
    var a := Claim(t.elections[e], t.node[t.elections[e].candidate].log);
    Go(s, t, SendVoteRequest(e, v));
    var u, r := Apply(t, SendVoteRequest(e, v)), VoteRequest(v, e, a);
    assert r in u.voteRequests;
    Go(s, u, RecvVoteRequest(r));
    x, m := Apply(u, RecvVoteRequest(r)), VoteAnswer(v, e, a, OnRequestVote(t.node[v], a).1);
  }

  /** The answer is a vote for a candidate that is still campaigning in that election. */
  ghost predicate IsVoteFor(t: State, m: VoteAnswer)
    requires WellFormed(t)
  {
    m in t.voteAnswers && m.from in t.elections[m.election].waiting &&
    var b := t.elections[m.election];
    && t.node[b.candidate].role == Candidate && t.node[b.candidate].currentTerm == b.term
    && m.reply == VoteReply(b.term, true)
  }

  lemma VoteEffect(t: State, m: VoteAnswer)
    requires WellFormed(t) && IsVoteFor(t, m)
    ensures var b, x := t.elections[m.election], Apply(t, RecvVoteAnswer(m));
            && x.servers == t.servers && x.elections == t.elections[m.election := Counted(b, m.from)]
            && x.node == t.node[b.candidate := Outcome(t.node[b.candidate], b, Peers(t, b.candidate))]
  {
    var b := t.elections[m.election];
    CountedNode(t.node[b.candidate], Peers(t, b.candidate), b.term, b.votesReceived, m.reply);
  }

  /** It is counted. */
  lemma Hear(s: State, t: State, m: VoteAnswer) returns (x: State)
    requires Along(s, t) && IsVoteFor(t, m)
    ensures Along(s, x) && x.servers == t.servers
    ensures var b := t.elections[m.election];
            && x.elections == t.elections[m.election := Counted(b, m.from)]
            && x.node == t.node[b.candidate := Outcome(t.node[b.candidate], b, Peers(t, b.candidate))]
  {
    Go(s, t, RecvVoteAnswer(m));
    VoteEffect(t, m);
    x := Apply(t, RecvVoteAnswer(m));
  }
}
