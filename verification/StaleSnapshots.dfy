/**
 * A run of five servers that goes wrong because a deposed leader builds a request of its old term
 * from the log and commit index that it has by then from a later leader.
 */
module StaleSnapshots {
  import opened RaftTypes
  import opened NodeRules
  import opened Cluster
  import opened ClusterRuns
  import opened CommitRuns

  /** Node 0 leads term 1, elected by nodes 3 and 4, and begins a round of heartbeats. */
  lemma BeginRound(g: Guards) returns (t: State)
    ensures Reachable(g, t) && WellFormed(t) && t.servers == FIVE && Round(0, 1) in t.rounds
    ensures Idle(t.node[0], Leader, 1, []) && Lookup(t.node[0].nextIndex, 2) == 0
    ensures t.node[1] == FRESH && t.node[2] == FRESH
    ensures Idle(t.node[3], Follower, 1, []) && Idle(t.node[4], Follower, 1, [])
  {
    var s := Start(g, FIVE);
    var u := ElectByTwo(g, s, 0, 3, 4);
    Take(g, u, StartRound(0));
    t := Apply(u, StartRound(0));
  }

  /** Node 1 leads term 2, node 3 leads term 3, and each has an entry that no other node has. */
  ghost predicate Contended(g: Guards, s: State, x: Command, y: Command) {
    && Reachable(g, s) && WellFormed(s) && s.servers == FIVE && Round(0, 1) in s.rounds
    && Idle(s.node[0], Follower, 3, []) && Lookup(s.node[0].nextIndex, 2) == 0
    && Leads(s.node[1], 2, [EntryOf(x, 2)], 0, Peers(s, 1)) && s.node[2] == FRESH
    && Leads(s.node[3], 3, [EntryOf(y, 3)], 0, Peers(s, 3)) && Idle(s.node[4], Follower, 3, [])
  }

  lemma Contend(g: Guards, x: Command, y: Command) returns (t: State)
    ensures Contended(g, t, x, y)
  {
    var s := BeginRound(g);
    var s1 := Campaign(g, s, 1);
    var s2 := Rise(g, s1, 1, 3, 4, x);
    t := Rise(g, s2, 3, 4, 0, y);
  }

  /** Node 3 has committed its entry with nodes 0 and 4. */
  lemma Commit(g: Guards, s: State, x: Command, y: Command) returns (t: State)
    requires Contended(g, s, x, y)
    ensures Reachable(g, t) && WellFormed(t) && t.servers == FIVE && Round(0, 1) in t.rounds
    ensures Idle(t.node[0], Follower, 3, [EntryOf(y, 3)]) && Lookup(t.node[0].nextIndex, 2) == 0
    ensures t.node[1] == s.node[1] && t.node[2] == FRESH
    ensures Announces(t.node[3], y)
  {
    var log := [EntryOf(y, 3)];
    var s1, m := Overwrite(g, s, 3, 0, log);
    var s2, k := Overwrite(g, s1, 3, 4, log);
    PeersOf(s2, 3);
    var s3 := Note(g, s2, m);
    FirstAck(s2.node[3], Peers(s2, 3), 0, m.args, 0);
    t := Note(g, s3, k);
    SecondAck(s3.node[3], Peers(s3, 3), 0, 4, k.args);
  }

  /** The leader of term 3 has committed its one entry, and knows that node 0 has it. */
  predicate Announces(n: Node, y: Command) {
    && ReadyToDeliver(n) && n.role == Leader && n.currentTerm == 3
    && n.log == [EntryOf(y, 3)] && n.commitIndex == 0 && Lookup(n.nextIndex, 0) == 1
  }

  /** Node 3 tells node 0 the commit index, and delivers. */
  lemma Announce(g: Guards, s: State, y: Command) returns (t: State)
    requires Reachable(g, s) && WellFormed(s) && s.servers == FIVE && Announces(s.node[3], y)
    requires Idle(s.node[0], Follower, 3, [EntryOf(y, 3)])
    ensures Reachable(g, t) && WellFormed(t) && t.servers == FIVE && s.rounds <= t.rounds
    ensures t.node[0] == s.node[0].(commitIndex := 0, pending := 1)
    ensures t.node[1] == s.node[1] && t.node[2] == s.node[2]
    ensures t.node[3].delivered == [CommitEntry(y, 0)]
  {
    var u, m := Replicate(g, s, 3, 0);
    Told(s.node[0], m.args);
    t := DeliverFirst(g, u, 3);
  }

  /** A request without entries raises the commit index. */
  lemma Told(n: Node, a: AppendArgs)
    requires Idle(n, Follower, a.term, n.log) && |n.log| == 1
    requires a.prevLogIndex == 0 && a.prevLogTerm == n.log[0].term && a.entries == [] && a.leaderCommit == 0
    ensures OnAppendEntries(n, a).0 == n.(commitIndex := 0, pending := 1)
  {
  }

  /** A first request to a new node fills its log and raises its commit index. */
  lemma Filled(a: AppendArgs)
    requires a.term > 0 && a.prevLogIndex == -1 && |a.entries| == 1 && a.leaderCommit == 0
    ensures var m := OnAppendEntries(FRESH, a).0;
            ReadyToDeliver(m) && m.currentTerm == a.term && m.log == a.entries && m.commitIndex == 0
  {
    assert [] + a.entries == a.entries;
  }

  /** The old round of node 0 plants an entry of term 3, as committed, in node 2, which is in term 1. */
  lemma Plant(g: Guards, x: Command, y: Command) returns (t: State)
    requires !g.snapshots
    ensures Reachable(g, t) && WellFormed(t) && t.servers == FIVE
    ensures Leads(t.node[1], 2, [EntryOf(x, 2)], 0, Peers(t, 1))
    ensures ReadyToDeliver(t.node[2]) && t.node[2].currentTerm == 1
    ensures t.node[2].log == [EntryOf(y, 3)] && t.node[2].commitIndex == 0
    ensures t.node[3].delivered == [CommitEntry(y, 0)]
  {
    var s := Contend(g, x, y);
    var s1 := Commit(g, s, x, y);
    var s2 := Announce(g, s1, y);
    var m;
    t, m := SendAndReceive(g, s2, Round(0, 1), 2);
    Filled(m.args);
  }

  /** Node 1, still in term 2, replaces that entry, and node 2 delivers what it then has. */
  lemma LostAgreement(g: Guards, x: Command, y: Command) returns (t: State)
    requires !g.snapshots
    ensures Reachable(g, t) && 2 in t.node && 3 in t.node
    ensures t.node[2].delivered == [CommitEntry(x, 0)] && t.node[3].delivered == [CommitEntry(y, 0)]
  {
    var s := Plant(g, x, y);
    var u, m := Overwrite(g, s, 1, 2, [EntryOf(x, 2)]);
    t := DeliverFirst(g, u, 2);
  }
}
