/** Leaders commit all that they may: the converse of the soundness of commitment. */
module CommitComplete {
  import opened RaftTypes
  import opened NodeRules
  import opened Cluster
  import opened ClusterElections
  import opened ClusterLeaders
  import opened ClusterSafety
  import opened ClusterCommit
  import Core = ElectionCore

  /** The leader may commit index `i`: an entry of its term that it knows `q` to hold, which suffices. */
  predicate MayReach(n: Node, peers: set<NodeId>, i: int, q: set<NodeId>) {
    0 <= i < |n.log| && n.log[i].term == n.currentTerm && Suffice(q, peers) && AllHold(n.matchIndex, q, i)
  }

  ghost predicate HasReached(n: Node, peers: set<NodeId>) {
    forall i, q :: MayReach(n, peers, i, q) ==> n.commitIndex >= i
  }

  /** No leader has left uncommitted an entry of its term that it knows a majority to hold. */
  ghost predicate AllReached(s: State) {
    forall n :: n in s.node && s.node[n].role == Leader ==> HasReached(s.node[n], Peers(s, n))
  }

  lemma LeaderHasPeers(s: State, n: NodeId)
    requires ElectionInv(s) && n in s.node && s.node[n].role == Leader
    ensures Peers(s, n) != {}
  {
    LeaderReigns(s, n);
    var c, w := CoreOf(s), s.reigns[s.node[n].currentTerm].election;
    assert w in c.wins && Core.BallotSound(c, c.ballots[w]) && c.ballots[w].voters != {};
    var v :| v in c.ballots[w].voters;
    assert v in Peers(s, n);
  }

  /** After the reply of a peer the leader has committed all that it now may. */
  lemma ReplyReaches(n: Node, peers: set<NodeId>, from: NodeId, a: AppendArgs, r: AppendReply)
    requires n.commitIndex >= -1 && (n.role == Leader ==> HasReached(n, peers))
    ensures var m := OnAppendReply(n, peers, from, a, r); m.role == Leader ==> HasReached(m, peers)
  {
    var m := OnAppendReply(n, peers, from, a, r);
    forall i, q | m.role == Leader && MayReach(m, peers, i, q) ensures m.commitIndex >= i {
      if n.role == Leader && a.term == r.term && r.success {
        var noted := Noted(n, from, a);
        if i > noted.commitIndex {
          CommitReaches(noted, peers, i, q);
        }
      } else {
        assert MayReach(n, peers, i, q);
      }
    }
  }

  /** A leader knows nothing of entries that it has just added, and nothing at all when it starts. */
  lemma LeadsOnReached(k: Node, m: Node, peers: set<NodeId>)
    requires LeadsOn(k, m, peers) && m.commitIndex == k.commitIndex && peers != {}
    requires k.role == Leader && m != StartLeader(k, peers) ==>
               HasReached(k, peers) && forall p :: p in peers ==> Lookup(k.matchIndex, p) < |k.log|
    ensures HasReached(m, peers)
  {
    forall i, q | MayReach(m, peers, i, q) ensures m.commitIndex >= i {
      NonEmpty(q, peers);
      var p :| p in q;
      assert Lookup(m.matchIndex, p) >= i;
      if m != StartLeader(k, peers) {
        assert MayReach(k, peers, i, q);
      }
    }
  }

  lemma NonEmpty(q: set<NodeId>, peers: set<NodeId>)
    requires Suffice(q, peers) && peers != {}
    ensures q != {}
  {
    var p :| p in peers;
    assert |peers| == |peers - {p}| + 1;
  }

  lemma LeaderReached(s: State, step: Step)
    requires WellFormed(s) && ProgressSound(s) && AllReached(s) && Enabled(s, step) && !step.RecvAppendAnswer?
    requires Apply(s, step).node[Actor(s, step)].role == Leader && Peers(s, Actor(s, step)) != {}
    ensures HasReached(Apply(s, step).node[Actor(s, step)], Peers(s, Actor(s, step)))
  {
    var n, k := Actor(s, step), Apply(s, step).node[Actor(s, step)];
    LeaderFrame(s, step, n);
    KeepsCommit(s, step);
    StillReached(s, n, k);
  }

  lemma StillReached(s: State, n: NodeId, k: Node)
    requires ProgressSound(s) && AllReached(s) && n in s.node && Peers(s, n) != {}
    requires LeadsOn(s.node[n], k, Peers(s, n)) && k.commitIndex == s.node[n].commitIndex
    ensures HasReached(k, Peers(s, n))
  {
    if s.node[n].role == Leader {
      forall p | p in Peers(s, n) ensures Lookup(s.node[n].matchIndex, p) < |s.node[n].log| {
        assert ProgressAt(s, n, p);
      }
    }
    LeadsOnReached(s.node[n], k, Peers(s, n));
  }

  lemma KeepsCommit(s: State, step: Step)
    requires WellFormed(s) && Enabled(s, step) && !step.RecvAppendAnswer?
    requires Apply(s, step).node[Actor(s, step)].role == Leader
    ensures Apply(s, step).node[Actor(s, step)].commitIndex == s.node[Actor(s, step)].commitIndex
  {
    if step.RecvAppend? {
      AppendFrame(s.node[step.append.to], step.append.args);
    } else {
      OtherStepsKeepCommit(s, step);
    }
  }

  lemma AnswerReached(s: State, step: Step)
    requires WellFormed(s) && NodesCommitted(s) && AllReached(s) && Enabled(s, step) && step.RecvAppendAnswer?
    requires Apply(s, step).node[Actor(s, step)].role == Leader
    ensures HasReached(Apply(s, step).node[Actor(s, step)], Peers(s, Actor(s, step)))
  {
    var n, m := Actor(s, step), step.ack;
    assert NodeCommitted(s, s.node[n]);
    ReplyReaches(s.node[n], Peers(s, n), m.from, m.args, m.reply);
  }

  lemma ActorReached(s: State, step: Step)
    requires Inv(s) && AllReached(s) && Enabled(s, step) && ElectionInv(Apply(s, step))
    requires Apply(s, step).node[Actor(s, step)].role == Leader
    ensures HasReached(Apply(s, step).node[Actor(s, step)], Peers(s, Actor(s, step)))
  {
    LeaderHasPeers(Apply(s, step), Actor(s, step));
    MessagesStay(s, step);
    if step.RecvAppendAnswer? {
      AnswerReached(s, step);
    } else {
      LeaderReached(s, step);
    }
  }

  lemma OthersReached(s: State, x: State, a: NodeId)
    requires AllReached(s) && a in s.node && a in x.node && x.node == s.node[a := x.node[a]] && x.servers == s.servers
    requires x.node[a].role == Leader ==> HasReached(x.node[a], Peers(s, a))
    ensures AllReached(x)
  {
    forall n | n in x.node && x.node[n].role == Leader ensures HasReached(x.node[n], Peers(x, n)) {
      assert n != a ==> x.node[n] == s.node[n];
    }
  }

  lemma StepKeepsAllReached(s: State, step: Step)
    requires Inv(s) && AllReached(s) && Enabled(s, step) && Respects(s, step, CURRENT)
    ensures AllReached(Apply(s, step))
  {
    var x := Apply(s, step);
    StepKeepsInv(s, step);
    ActorFrame(s, step);
    if x.node[Actor(s, step)].role == Leader {
      ActorReached(s, step);
    }
    OthersReached(s, x, Actor(s, step));
  }

  lemma {:induction false} RunAllReached(states: seq<State>, steps: seq<Step>, i: nat)
    requires IsRun(CURRENT, states, steps) && i < |states|
    ensures AllReached(states[i])
  {
    if i > 0 {
      RunAllReached(states, steps, i - 1);
      RunInv(states, steps, i - 1);
      assert FollowsAt(CURRENT, states, steps, i - 1);
      StepKeepsAllReached(states[i - 1], steps[i - 1]);
    }
  }

  /**
   * At every moment of a run, a leader has committed every entry of its own term, and with it all
   * before, that it knows to be held by peers who together with it are a majority.
   */
  lemma HeldIsCommitted(states: seq<State>, steps: seq<Step>, i: nat, n: NodeId, k: int, q: set<NodeId>)
    requires IsRun(CURRENT, states, steps) && i < |states| && n in states[i].node
    requires var l := states[i].node[n];
             && l.role == Leader && 0 <= k < |l.log| && l.log[k].term == l.currentTerm
             && q <= Peers(states[i], n) && (1 + |q|) * 2 > |Peers(states[i], n)| + 1
             && forall p :: p in q ==> p in l.matchIndex && l.matchIndex[p] >= k
    ensures states[i].node[n].commitIndex >= k
  {
    RunAllReached(states, steps, i);
    assert MayReach(states[i].node[n], Peers(states[i], n), k, q);
  }
}
