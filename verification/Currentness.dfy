/**
 * Which of the three missing term comparisons each safety property needs. A property holds in every
 * reachable state exactly if certain of them are made; without any one of those, some run breaks it,
 * even if the other two are in place.
 */
module Currentness {
  import opened RaftTypes
  import opened NodeRules
  import opened Cluster
  import opened ClusterLogs
  import opened ClusterLeaders
  import opened ClusterRuns
  import opened ClusterSafety
  import opened ClusterSenders
  import opened ClusterSorted
  import StaleProgress
  import StaleSnapshots
  import StaleVotes

  // ---------- Safety, stated without history ----------

  ghost predicate OneLeaderPerTerm(s: State) {
    forall a, b :: a in s.node && b in s.node && SameTermLeaders(s.node[a], s.node[b]) ==> a == b
  }

  predicate SameTermLeaders(n: Node, m: Node) {
    n.role == Leader && m.role == Leader && n.currentTerm == m.currentTerm
  }

  ghost predicate TermsBounded(s: State) {
    forall n :: n in s.node ==> Bounded(s.node[n].log, s.node[n].currentTerm)
  }

  ghost predicate AllLogsSorted(s: State) {
    forall n :: n in s.node ==> Sorted(s.node[n].log)
  }

  ghost predicate AllLogsMatch(s: State) {
    forall a, b :: a in s.node && b in s.node ==> LogsMatch(s.node[a].log, s.node[b].log)
  }

  ghost predicate DeliveriesConsistent(s: State) {
    forall a, b :: a in s.node && b in s.node ==> Consistent(s.node[a].delivered, s.node[b].delivered)
  }

  predicate Consistent(a: seq<CommitEntry>, b: seq<CommitEntry>) {
    Continues(a, b) || Continues(b, a)
  }

  /** No step that is possible under `g` indexes or slices out of range. */
  ghost predicate NeverOutOfRange(g: Guards, s: State) {
    WellFormed(s) && forall step :: Offered(s, step) && Respects(s, step, g) ==> InRange(s, step)
  }

  ghost predicate Safe(g: Guards, s: State) {
    OneLeaderPerTerm(s) && TermsBounded(s) && AllLogsMatch(s) && DeliveriesConsistent(s) && NeverOutOfRange(g, s)
  }

  /** No node's term ever falls. */
  ghost predicate TermsRise(states: seq<State>) {
    forall i, j, n :: 0 <= i <= j < |states| && n in states[i].node && n in states[j].node ==>
      states[i].node[n].currentTerm <= states[j].node[n].currentTerm
  }

  // ---------- Elections: only vote replies matter ----------

  lemma OneLeader(g: Guards, s: State)
    requires g.voteReplies && Reachable(g, s)
    ensures OneLeaderPerTerm(s)
  {
    var states, steps :| Arrives(g, states, steps, s);
    forall a, b | a in s.node && b in s.node && SameTermLeaders(s.node[a], s.node[b]) ensures a == b {
      ElectionSafety(g, states, steps, |steps|, |steps|, a, b);
    }
  }

  /** A candidate of term 2 that still counts a vote from term 1 becomes a second leader of term 2. */
  lemma StaleVoteReply(g: Guards) returns (t: State)
    requires !g.voteReplies
    ensures Reachable(g, t) && !OneLeaderPerTerm(t)
  {
    t := StaleVotes.TwoReigns(g);
    assert SameTermLeaders(t.node[0], t.node[1]);
  }

  lemma OneLeaderIff(g: Guards)
    ensures (forall s :: Reachable(g, s) ==> OneLeaderPerTerm(s)) <==> g.voteReplies
  {
    if g.voteReplies {
      forall s | Reachable(g, s) ensures OneLeaderPerTerm(s) {
        OneLeader(g, s);
      }
    } else {
      var t := StaleVoteReply(g);
    }
  }

  /** A candidate of term 5 that hears of the term in which its vote of term 1 was refused falls back to it. */
  lemma StaleRefusal(g: Guards) returns (states: seq<State>, steps: seq<Step>)
    requires !g.voteReplies
    ensures IsRun(g, states, steps) && !TermsRise(states)
  {
    var command: Command :| true;
    var s, step, vote := StaleVotes.Relapse(g, command);
    var before, taken :| Arrives(g, before, taken, s);
    var t := Apply(s, step);
    Extend(g, before, taken, s, step, t);
    states, steps := before + [t], taken + [step];
    assert states[|taken|] == s && states[|taken| + 1] == t;
  }

  lemma TermsNeverFallIff(g: Guards)
    ensures (forall states, steps :: IsRun(g, states, steps) ==> TermsRise(states)) <==> g.voteReplies
  {
    if g.voteReplies {
      forall states: seq<State>, steps: seq<Step> | IsRun(g, states, steps) ensures TermsRise(states) {
        forall i, j, n | 0 <= i <= j < |states| && n in states[i].node && n in states[j].node
          ensures states[i].node[n].currentTerm <= states[j].node[n].currentTerm
        {
          TermsNeverFall(g, states, steps, i, j, n);
        }
      }
    } else {
      var states, steps := StaleRefusal(g);
    }
  }

  // ---------- Logs ----------

  lemma LogsMatching(g: Guards, s: State)
    requires g.voteReplies && Reachable(g, s)
    ensures AllLogsMatch(s)
  {
    var states, steps :| Arrives(g, states, steps, s);
    forall a, b | a in s.node && b in s.node ensures LogsMatch(s.node[a].log, s.node[b].log) {
      LogMatching(g, states, steps, |steps|, |steps|, a, b);
    }
  }

  /** If clients have two commands, logs match exactly if no leader is made by an old vote. */
  lemma LogsMatchIff(g: Guards, z: Command, w: Command)
    requires z != w
    ensures (forall s :: Reachable(g, s) ==> AllLogsMatch(s)) <==> g.voteReplies
  {
    if g.voteReplies {
      forall s | Reachable(g, s) ensures AllLogsMatch(s) {
        LogsMatching(g, s);
      }
    } else {
      var t := StaleVotes.TwoLogs(g, z, w);
      assert t.node[0].log[0] != t.node[1].log[0] && !Agree(t.node[0].log, t.node[1].log, 1);
    }
  }

  /** Terms never fall along logs exactly if no candidate acts on old vote replies. */
  lemma LogsSortedIff(g: Guards)
    ensures (forall s :: Reachable(g, s) ==> AllLogsSorted(s)) <==> g.voteReplies
  {
    if g.voteReplies {
      forall s | Reachable(g, s) ensures AllLogsSorted(s) {
        var states, steps :| Arrives(g, states, steps, s);
        forall n | n in s.node ensures Sorted(s.node[n].log) {
          TermsSorted(g, states, steps, |steps|, n);
        }
      }
    } else {
      var command: Command :| true;
      var t := StaleVotes.Unsorted(g, command);
      assert t.node[0].log[0].term > t.node[0].log[1].term;
    }
  }

  lemma BoundedTerms(g: Guards, s: State)
    requires g.voteReplies && g.snapshots && Reachable(g, s)
    ensures TermsBounded(s)
  {
    var states, steps :| Arrives(g, states, steps, s);
    forall n | n in s.node ensures Bounded(s.node[n].log, s.node[n].currentTerm) {
      EntriesBounded(g, states, steps, |steps|, n);
    }
  }

  /** A deposed leader's late request plants an entry of term 3 in a node that is in term 1. */
  lemma StaleSnapshot(g: Guards) returns (t: State)
    requires !g.snapshots
    ensures Reachable(g, t) && !TermsBounded(t)
  {
    var command: Command :| true;
    t := StaleSnapshots.Plant(g, command, command);
    assert t.node[2].log[0].term > t.node[2].currentTerm;
  }

  /** A node whose term fell still has the entry that it got in the later term. */
  lemma StaleTerm(g: Guards) returns (t: State)
    requires !g.voteReplies
    ensures Reachable(g, t) && !TermsBounded(t)
  {
    var command: Command :| true;
    var s, step, vote := StaleVotes.Relapse(g, command);
    Take(g, s, step);
    t := Apply(s, step);
    assert t.node[0].log[0].term > t.node[0].currentTerm;
  }

  /** Entries stay within their nodes' terms exactly if votes and requests are current. */
  lemma TermsBoundedIff(g: Guards)
    ensures (forall s :: Reachable(g, s) ==> TermsBounded(s)) <==> g.voteReplies && g.snapshots
  {
    if g.voteReplies && g.snapshots {
      forall s | Reachable(g, s) ensures TermsBounded(s) {
        BoundedTerms(g, s);
      }
    } else if g.voteReplies {
      var t := StaleSnapshot(g);
    } else {
      var t := StaleTerm(g);
    }
  }

  // ---------- Agreement ----------

  lemma ConsistentDeliveries(s: State)
    requires Reachable(CURRENT, s)
    ensures DeliveriesConsistent(s)
  {
    var states, steps :| Arrives(CURRENT, states, steps, s);
    forall a, b | a in s.node && b in s.node ensures Consistent(s.node[a].delivered, s.node[b].delivered) {
      StateMachineSafety(states, steps, |steps|, |steps|, a, b);
    }
  }

  /**
   * A leader of term 3 that notes progress acknowledged in term 1 commits and delivers an entry
   * that a majority never had, and the next leader delivers another command in its place.
   */
  lemma StaleAppendReply(g: Guards, z: Command, w: Command) returns (t: State)
    requires !g.appendReplies && z != w
    ensures Reachable(g, t) && !DeliveriesConsistent(t)
  {
    t := StaleProgress.LostAgreement(g, z, w);
    assert t.node[0].delivered[1] != t.node[1].delivered[1];
    assert !Consistent(t.node[0].delivered, t.node[1].delivered);
  }

  /**
   * A node that a deposed leader's late request made commit an entry of term 3 while in term 1 has
   * that entry replaced by the leader of term 2, and delivers the replacement.
   */
  lemma StaleRequest(g: Guards, z: Command, w: Command) returns (t: State)
    requires !g.snapshots && z != w
    ensures Reachable(g, t) && !DeliveriesConsistent(t)
  {
    t := StaleSnapshots.LostAgreement(g, z, w);
    assert t.node[2].delivered[0] != t.node[3].delivered[0];
    assert !Consistent(t.node[2].delivered, t.node[3].delivered);
  }

  /** A leader made by an old vote lacks what is committed, and delivers something else in its place. */
  lemma StaleVote(g: Guards, z: Command, w: Command) returns (t: State)
    requires !g.voteReplies && z != w
    ensures Reachable(g, t) && !DeliveriesConsistent(t)
  {
    t := StaleVotes.LostAgreement(g, z, w);
    assert t.node[0].delivered[0] != t.node[1].delivered[0];
    assert !Consistent(t.node[0].delivered, t.node[1].delivered);
  }

  /** If clients have two commands, what nodes deliver agrees exactly if all three terms are compared. */
  lemma AgreementIff(g: Guards, z: Command, w: Command)
    requires z != w
    ensures (forall s :: Reachable(g, s) ==> DeliveriesConsistent(s)) <==> g == CURRENT
  {
    if g == CURRENT {
      forall s | Reachable(g, s) ensures DeliveriesConsistent(s) {
        ConsistentDeliveries(s);
      }
    } else if !g.voteReplies {
      var t := StaleVote(g, z, w);
    } else if !g.snapshots {
      var t := StaleRequest(g, z, w);
    } else {
      var t := StaleAppendReply(g, z, w);
    }
  }

  // ---------- Indices ----------

  lemma IndicesInRange(s: State)
    requires Reachable(CURRENT, s)
    ensures NeverOutOfRange(CURRENT, s)
  {
    var states, steps :| Arrives(CURRENT, states, steps, s);
    RunInv(states, steps, |steps|);
    forall step | Offered(s, step) && Respects(s, step, CURRENT) ensures InRange(s, step) {
      IndexSafety(states, steps, |steps|, step);
    }
  }

  /** Without any one comparison some node indexes or slices its log out of range. */
  lemma OutOfRange(g: Guards) returns (t: State)
    requires g != CURRENT
    ensures Reachable(g, t) && !NeverOutOfRange(g, t)
  {
    var command: Command :| true;
    var step;
    if !g.voteReplies {
      t, step := StaleVotes.CutCommitted(g, command, command);
    } else if !g.snapshots {
      t, step := StaleProgress.StaleNextIndex(g, command);
    } else {
      t, step := StaleProgress.StaleNoteOverruns(g, command);
    }
  }

  lemma RangeIff(g: Guards)
    ensures (forall s :: Reachable(g, s) ==> NeverOutOfRange(g, s)) <==> g == CURRENT
  {
    if g == CURRENT {
      forall s | Reachable(g, s) ensures NeverOutOfRange(g, s) {
        IndicesInRange(s);
      }
    } else {
      var t := OutOfRange(g);
    }
  }

  // ---------- All of them ----------

  lemma CurrentIsSafe(s: State)
    requires Reachable(CURRENT, s)
    ensures Safe(CURRENT, s)
  {
    OneLeader(CURRENT, s);
    LogsMatching(CURRENT, s);
    BoundedTerms(CURRENT, s);
    ConsistentDeliveries(s);
    IndicesInRange(s);
  }

  /** The three comparisons are exactly what the properties need together. */
  lemma GuardsExactlyNeeded(g: Guards)
    ensures (forall s :: Reachable(g, s) ==> Safe(g, s)) <==> g == CURRENT
  {
    if g == CURRENT {
      forall s | Reachable(g, s) ensures Safe(g, s) {
        CurrentIsSafe(s);
      }
    } else {
      var t := OutOfRange(g);
    }
  }

  // ---------- One reply ----------

  /**
   * When handling a vote reply lowers a node's term: exactly when a candidate that has moved on
   * hears of a term between that of the old election and its own.
   */
  lemma VoteReplyKeepsTermIff(n: Node, peers: set<NodeId>, saved: nat, votes: nat, r: VoteReply)
    ensures OnVoteReply(n, peers, saved, votes, r).0.currentTerm >= n.currentTerm
            <==> !(n.role == Candidate && saved < r.term < n.currentTerm)
  {
  }
}
