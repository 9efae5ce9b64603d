/**
 * Runs that go wrong because a leader notes, as progress of its present term, an acknowledgement
 * that it was given in an earlier term.
 */
module StaleProgress {
  import opened RaftTypes
  import opened NodeRules
  import opened Cluster
  import opened ClusterRuns
  import opened CommitRuns

  /** The acknowledgement that stays in flight. */
  function Late(x: Command): AppendAnswer {
    AppendAnswer(1, AppendArgs(1, 0, -1, -1, [EntryOf(x, 1), EntryOf(x, 1)], -1), AppendReply(1, true))
  }

  /** Node 0 leads term 1 and gives node 1 two entries. */
  ghost predicate AfterTerm1(g: Guards, s: State, x: Command) {
    && Reachable(g, s) && WellFormed(s) && s.servers == FIVE && Late(x) in s.appendAnswers && Round(0, 1) in s.rounds
    && var log := [EntryOf(x, 1), EntryOf(x, 1)];
    && Leads(s.node[0], 1, log, 0, Peers(s, 0)) && Idle(s.node[1], Follower, 1, log) && Idle(s.node[2], Follower, 1, [])
    && s.node[3] == FRESH && s.node[4] == FRESH
  }

  lemma Term1(g: Guards, x: Command) returns (t: State)
    ensures AfterTerm1(g, t, x)
  {
    var s := Start(g, FIVE);
    var s2 := Rise(g, s, 0, 1, 2, x);
    var s3 := Accept(g, s2, 0, x);
    var m;
    t, m := Overwrite(g, s3, 0, 1, [EntryOf(x, 1), EntryOf(x, 1)]);
  }

  /** Node 4 replaces the log of node `p` in term 2. */
  lemma Replace(g: Guards, s: State, p: NodeId, y: Command) returns (t: State)
    requires Reachable(g, s) && WellFormed(s) && s.servers == FIVE && p in FIVE && p != 4
    requires Leads(s.node[4], 2, [EntryOf(y, 2)], 0, Peers(s, 4))
    requires s.node[p].currentTerm <= 2 && Idle(s.node[p], s.node[p].role, s.node[p].currentTerm, s.node[p].log)
    requires s.node[p].log == [] || s.node[p].log[0].term < 2
    ensures Reachable(g, t) && WellFormed(t) && t.servers == FIVE && s.appendAnswers <= t.appendAnswers
    ensures s.rounds <= t.rounds
    ensures t.node == s.node[p := t.node[p]] && Idle(t.node[p], Follower, 2, [EntryOf(y, 2)])
    ensures t.node[p].nextIndex == s.node[p].nextIndex
  {
    var m;
    t, m := Overwrite(g, s, 4, p, [EntryOf(y, 2)]);
  }

  /** Node 4 leads term 2 and replaces everybody's log. */
  ghost predicate AfterTerm2(g: Guards, s: State, x: Command, y: Command) {
    && Reachable(g, s) && WellFormed(s) && s.servers == FIVE && Late(x) in s.appendAnswers && Round(0, 1) in s.rounds
    && var log := [EntryOf(y, 2)];
    && Idle(s.node[4], Leader, 2, log)
    && forall p :: p in {0, 1, 2, 3} ==> Idle(s.node[p], Follower, 2, log)
  }

  /** Node 4 is elected in term 2 with the votes of nodes 2 and 3, and accepts a command. */
  lemma Depose(g: Guards, s: State, x: Command, y: Command) returns (t: State)
    requires Reachable(g, s) && WellFormed(s) && s.servers == FIVE && s.node[3] == FRESH && s.node[4] == FRESH
    requires Idle(s.node[2], Follower, 1, [])
    ensures Reachable(g, t) && WellFormed(t) && t.servers == FIVE && t.appendAnswers == s.appendAnswers
    ensures t.rounds == s.rounds
    ensures Leads(t.node[4], 2, [EntryOf(y, 2)], 0, Peers(t, 4))
    ensures Idle(t.node[2], Follower, 2, []) && Idle(t.node[3], Follower, 2, [])
    ensures t.node[0] == s.node[0] && t.node[1] == s.node[1]
  {
    var s1 := Campaign(g, s, 4);
    t := Rise(g, s1, 4, 2, 3, y);
  }

  lemma Term2(g: Guards, s: State, x: Command, y: Command) returns (t: State)
    requires Reachable(g, s) && WellFormed(s) && s.servers == FIVE && Late(x) in s.appendAnswers
    requires Round(0, 1) in s.rounds
    requires s.node[3] == FRESH && s.node[4] == FRESH && Idle(s.node[2], Follower, 1, [])
    requires var log := [EntryOf(x, 1), EntryOf(x, 1)];
             Idle(s.node[0], Leader, 1, log) && Idle(s.node[1], Follower, 1, log)
    ensures AfterTerm2(g, t, x, y) && t.node[0].nextIndex == s.node[0].nextIndex
  {
    var s1 := Depose(g, s, x, y);
    var s2 := Replace(g, s1, 0, y);
    var s3 := Replace(g, s2, 1, y);
    var s4 := Replace(g, s3, 2, y);
    t := Replace(g, s4, 3, y);
  }

  /** Node 0 leads term 3, with its log and that of node 2 one entry longer than those of the others. */
  ghost predicate AfterTerm3(g: Guards, s: State, y: Command, z: Command) {
    && Reachable(g, s) && WellFormed(s) && s.servers == FIVE
    && s.node[0].delivered == [CommitEntry(y, 0), CommitEntry(z, 1)]
    && Idle(s.node[1], Follower, 3, [EntryOf(y, 2)])
    && Idle(s.node[3], Follower, 2, [EntryOf(y, 2)]) && Idle(s.node[4], Leader, 2, [EntryOf(y, 2)])
  }

  /** Node 0 is elected again and accepts a command. */
  lemma Restore(g: Guards, s: State, x: Command, y: Command, z: Command) returns (t: State)
    requires AfterTerm2(g, s, x, y)
    ensures Reachable(g, t) && WellFormed(t) && t.servers == FIVE && t.appendAnswers == s.appendAnswers
    ensures Leads(t.node[0], 3, [EntryOf(y, 2), EntryOf(z, 3)], 1, Peers(t, 0))
    ensures Idle(t.node[1], Follower, 3, [EntryOf(y, 2)]) && Idle(t.node[2], Follower, 3, [EntryOf(y, 2)])
    ensures Idle(t.node[3], Follower, 2, [EntryOf(y, 2)]) && Idle(t.node[4], Leader, 2, [EntryOf(y, 2)])
  {
    t := Rise(g, s, 0, 1, 2, z);
  }

  /** It brings the command to node 2, counts the old acknowledgement of node 1 as well, and delivers. */
  lemma Term3(g: Guards, s: State, x: Command, y: Command, z: Command) returns (t: State)
    requires !g.appendReplies && AfterTerm2(g, s, x, y)
    ensures AfterTerm3(g, t, y, z)
  {
    var s1 := Restore(g, s, x, y, z);
    var log := [EntryOf(y, 2), EntryOf(z, 3)];
    var s2, m := Append(g, s1, 0, 2, log);
    PeersOf(s2, 0);
    var s3 := Note(g, s2, m);
    FirstAck(s2.node[0], Peers(s2, 0), 2, m.args, 1);
    var s4 := Note(g, s3, Late(x));
    SecondAck(s3.node[0], Peers(s3, 0), 2, 1, Late(x).args);
    t := DeliverBoth(g, s4, 0);
  }

  /** Node 1, whose log never had the entry, leads term 4 and accepts another command. */
  lemma Succeed(g: Guards, s: State, y: Command, z: Command, w: Command) returns (t: State)
    requires AfterTerm3(g, s, y, z)
    ensures Reachable(g, t) && WellFormed(t) && t.servers == FIVE && t.node[0] == s.node[0]
    ensures Leads(t.node[1], 4, [EntryOf(y, 2), EntryOf(w, 4)], 1, Peers(t, 1))
    ensures Idle(t.node[3], Follower, 4, [EntryOf(y, 2)]) && Idle(t.node[4], Follower, 4, [EntryOf(y, 2)])
  {
    t := Rise(g, s, 1, 3, 4, w);
  }

  /** It commits it with nodes 3 and 4, and delivers. */
  lemma Term4(g: Guards, s: State, y: Command, z: Command, w: Command) returns (t: State)
    requires AfterTerm3(g, s, y, z)
    ensures Reachable(g, t) && t.node.Keys == FIVE
    ensures t.node[0].delivered == [CommitEntry(y, 0), CommitEntry(z, 1)]
    ensures t.node[1].delivered == [CommitEntry(y, 0), CommitEntry(w, 1)]
  {
    var s1 := Succeed(g, s, y, z, w);
    var log := [EntryOf(y, 2), EntryOf(w, 4)];
    var s2, m := Append(g, s1, 1, 3, log);
    var s3, k := Append(g, s2, 1, 4, log);
    PeersOf(s3, 1);
    var s4 := Note(g, s3, m);
    FirstAck(s3.node[1], Peers(s3, 1), 3, m.args, 1);
    var s5 := Note(g, s4, k);
    SecondAck(s4.node[1], Peers(s4, 1), 3, 4, k.args);
    t := DeliverBoth(g, s5, 1);
  }

  /** Without the comparison on append replies two nodes can deliver different commands at one index. */
  lemma LostAgreement(g: Guards, z: Command, w: Command) returns (t: State)
    requires !g.appendReplies
    ensures Reachable(g, t) && 0 in t.node && 1 in t.node
    ensures t.node[0].delivered == [CommitEntry(z, 0), CommitEntry(z, 1)]
    ensures t.node[1].delivered == [CommitEntry(z, 0), CommitEntry(w, 1)]
  {
    var s1 := Term1(g, z);
    var s2 := Term2(g, s1, z, z);
    var s3 := Term3(g, s2, z, z, z);
    t := Term4(g, s3, z, z, w);
  }

  // ---------- Indices out of range ----------

  /**
   * A deposed leader can hold a `nextIndex` beyond its shortened log; only the comparison before
   * building a request keeps it from slicing there.
   */
  lemma StaleNextIndex(g: Guards, x: Command) returns (t: State, step: Step)
    ensures Reachable(g, t) && WellFormed(t) && step.SendAppend? && Offered(t, step) && !InRange(t, step)
    ensures Respects(t, step, g) <==> !g.snapshots
  {
    var s := Term1(g, x);
    var late := Late(x);
    var s1 := Note(g, s, late);
    PeersOf(s, 0);
    FirstAck(s.node[0], Peers(s, 0), 1, late.args, 0);
    t := Term2(g, s1, x, x);
    step := SendAppend(Round(0, 1), 1);
  }

  /** A leader of the present term gets there by noting the old acknowledgement. */
  lemma StaleNoteOverruns(g: Guards, x: Command) returns (t: State, step: Step)
    requires !g.appendReplies
    ensures Reachable(g, t) && WellFormed(t) && Offered(t, step) && Respects(t, step, g) && !InRange(t, step)
  {
    var s1 := Term1(g, x);
    var s2 := Term2(g, s1, x, x);
    var s3 := Reelect(g, s2, x);
    var s4 := Note(g, s3, Late(x));
    OldTermUncommitted(s3.node[0], Peers(s3, 0), Late(x).args);
    Take(g, s4, StartRound(0));
    t, step := Apply(s4, StartRound(0)), SendAppend(Round(0, 3), 1);
  }

  lemma Reelect(g: Guards, s: State, x: Command) returns (t: State)
    requires AfterTerm2(g, s, x, x)
    ensures Reachable(g, t) && WellFormed(t) && t.servers == FIVE && t.appendAnswers == s.appendAnswers
    ensures Idle(t.node[0], Leader, 3, [EntryOf(x, 2)])
  {
    t := ElectByTwo(g, s, 0, 1, 2);
  }

  lemma OldTermUncommitted(n: Node, peers: set<NodeId>, a: AppendArgs)
    requires Idle(n, Leader, n.currentTerm, n.log) && a.term <= n.currentTerm
    requires forall i :: 0 <= i < |n.log| ==> n.log[i].term < n.currentTerm
    ensures var m := OnAppendReply(n, peers, 1, a, AppendReply(a.term, true));
            Idle(m, Leader, n.currentTerm, n.log) && Lookup(m.nextIndex, 1) == a.prevLogIndex + 1 + |a.entries|
  {
  }
}
