/** Runs in which entries are replicated, committed and delivered. */
module CommitRuns {
  import opened RaftTypes
  import opened NodeRules
  import opened Cluster
  import opened ClusterRuns

  const FIVE: set<NodeId> := {0, 1, 2, 3, 4}

  function EntryOf(command: Command, term: nat): LogEntry {
    LogEntry(command, term)
  }

  /** Node `c` is elected with the votes of `v` and `w` and accepts a command. */
  lemma Rise(g: Guards, s: State, c: NodeId, v: NodeId, w: NodeId, command: Command) returns (t: State)
    requires Reachable(g, s) && WellFormed(s) && |s.servers| == 5
    requires c in s.servers && v in s.servers && w in s.servers && c != v && c != w && v != w
    requires IsIdle(s.node[c]) && IsIdle(s.node[v]) && IsIdle(s.node[w]) && s.node[c].role != Leader
    requires s.node[v].currentTerm <= s.node[c].currentTerm && s.node[w].currentTerm <= s.node[c].currentTerm
    requires AtLeastAsNew(s.node[c].log, s.node[v].log) && AtLeastAsNew(s.node[c].log, s.node[w].log)
    ensures Reachable(g, t) && WellFormed(t) && t.servers == s.servers
    ensures t.appendAnswers == s.appendAnswers && t.rounds == s.rounds
    ensures var term, log := s.node[c].currentTerm + 1, s.node[c].log;
            && Leads(t.node[c], term, log + [EntryOf(command, term)], |log|, Peers(t, c))
            && Idle(t.node[v], Follower, term, s.node[v].log) && Idle(t.node[w], Follower, term, s.node[w].log)
    ensures t.node[v].nextIndex == s.node[v].nextIndex && t.node[w].nextIndex == s.node[w].nextIndex
    ensures forall n :: n in s.servers && n !in {c, v, w} ==> t.node[n] == s.node[n]
  {
    var u := ElectByTwo(g, s, c, v, w);
    ElectedLeads(s.node[c], c, Peers(s, c));
    t := Accept(g, u, c, command);
  }

  // ---------- Requests ----------

  /** A request from the first index on replaces a log that differs from it there. */
  lemma Overwritten(n: Node, a: AppendArgs)
    requires n.currentTerm <= a.term && a.prevLogIndex == -1 && a.leaderCommit <= n.commitIndex && a.entries != []
    requires n.log == [] || n.log[0].term != a.entries[0].term
    ensures var (m, reply) := OnAppendEntries(n, a);
            && reply == AppendReply(a.term, true)
            && m == n.(role := Follower, currentTerm := a.term, votedFor := m.votedFor, log := a.entries)
  {
    assert [] + a.entries == a.entries;
  }

  /** A request for the second index extends a log of length one. */
  lemma Extended(n: Node, a: AppendArgs)
    requires Idle(n, n.role, n.currentTerm, n.log) && n.currentTerm <= a.term && |n.log| == 1
    requires a.prevLogIndex == 0 && a.prevLogTerm == n.log[0].term && a.leaderCommit == -1 && |a.entries| == 1
    ensures var (m, reply) := OnAppendEntries(n, a);
            reply == AppendReply(a.term, true) && Idle(m, Follower, a.term, n.log + a.entries)
  {
    assert a.entries[0..] == a.entries && n.log[..1] == n.log;
  }

  /** Leader `l` replaces the log of `p`. */
  lemma Overwrite(g: Guards, s: State, l: NodeId, p: NodeId, log: Log) returns (t: State, m: AppendAnswer)
    requires Reachable(g, s) && WellFormed(s) && l in s.servers && p in s.servers && l != p
    requires Leads(s.node[l], s.node[l].currentTerm, log, 0, Peers(s, l)) && log != []
    requires s.node[p].currentTerm <= s.node[l].currentTerm && s.node[p].commitIndex >= -1
    requires s.node[p].log == [] || s.node[p].log[0].term != log[0].term
    ensures Reachable(g, t) && WellFormed(t) && t.servers == s.servers
    ensures m in t.appendAnswers && m.from == p && m.reply == AppendReply(s.node[l].currentTerm, true)
    ensures m.args == AppendArgs(s.node[l].currentTerm, l, -1, -1, log, -1)
    ensures t == s.(node := s.node[p := t.node[p]], rounds := s.rounds + {Round(l, s.node[l].currentTerm)},
                    appendRequests := t.appendRequests, appendAnswers := s.appendAnswers + {m})
    ensures t.node[p] == s.node[p].(role := Follower, currentTerm := s.node[l].currentTerm,
                                    votedFor := t.node[p].votedFor, log := log)
  {
    t, m := Replicate(g, s, l, p);
    Overwritten(s.node[p], m.args);
  }

  /** Leader `l` brings its second entry to `p`, which has the first. */
  lemma Append(g: Guards, s: State, l: NodeId, p: NodeId, log: Log) returns (t: State, m: AppendAnswer)
    requires Reachable(g, s) && WellFormed(s) && l in s.servers && p in s.servers && l != p
    requires Leads(s.node[l], s.node[l].currentTerm, log, 1, Peers(s, l)) && |log| == 2
    requires s.node[p].currentTerm <= s.node[l].currentTerm
    requires Idle(s.node[p], s.node[p].role, s.node[p].currentTerm, log[..1])
    ensures Reachable(g, t) && WellFormed(t) && t.servers == s.servers && s.appendAnswers <= t.appendAnswers
    ensures t.node == s.node[p := t.node[p]] && Idle(t.node[p], Follower, s.node[l].currentTerm, log)
    ensures m in t.appendAnswers && m.from == p
    ensures m.args == AppendArgs(s.node[l].currentTerm, l, 0, log[0].term, log[1..], -1)
    ensures m.reply == AppendReply(s.node[l].currentTerm, true)
  {
    t, m := Replicate(g, s, l, p);
    Extended(s.node[p], m.args);
    assert log[..1] + log[1..] == log;
  }

  // ---------- Acknowledgements ----------

  /** The last entry of the log is of the given term. */
  predicate EndsIn(log: Log, term: nat) {
    log != [] && log[|log| - 1].term == term
  }

  /** A leader that knows of one holder of its log, among four peers. */
  predicate Halfway(n: Node, term: nat, log: Log, peers: set<NodeId>, p: NodeId) {
    && Idle(n, Leader, term, log) && EndsIn(log, term)
    && |peers| == 4 && p in peers && Lookup(n.matchIndex, p) == |log| - 1 && Lookup(n.nextIndex, p) == |log|
    && forall q :: q in peers && q != p ==> Lookup(n.matchIndex, q) == -1
  }

  lemma FirstAck(n: Node, peers: set<NodeId>, p: NodeId, a: AppendArgs, next: nat)
    requires Leads(n, a.term, n.log, next, peers) && EndsIn(n.log, a.term)
    requires |peers| == 4 && p in peers && a.prevLogIndex + |a.entries| == |n.log| - 1
    ensures Halfway(OnAppendReply(n, peers, p, a, AppendReply(a.term, true)), a.term, n.log, peers, p)
  {
    var m := n.(nextIndex := n.nextIndex[p := |n.log|], matchIndex := n.matchIndex[p := |n.log| - 1]);
    forall i: nat | i < |m.log| ensures !CanCommit(m, peers, i) {
      assert Holders(m, peers, i) == {p};
    }
    assert NewCommitIndex(m, peers) == -1;
  }

  /** The second of four peers makes a majority. */
  lemma SecondAck(n: Node, peers: set<NodeId>, p: NodeId, q: NodeId, a: AppendArgs)
    requires Halfway(n, n.currentTerm, n.log, peers, p) && q in peers && q != p
    requires a.term <= n.currentTerm && a.prevLogIndex + |a.entries| == |n.log| - 1
    ensures var last, m := |n.log| - 1, OnAppendReply(n, peers, q, a, AppendReply(a.term, true));
            && m == n.(nextIndex := m.nextIndex, matchIndex := m.matchIndex, commitIndex := last, pending := 1)
            && Lookup(m.nextIndex, p) == |n.log|
  {
    var last := |n.log| - 1;
    var m := n.(nextIndex := n.nextIndex[q := |n.log|], matchIndex := n.matchIndex[q := last]);
    assert Holders(m, peers, last) == {p, q};
    assert CanCommit(m, peers, last);
    assert NewCommitIndex(m, peers) == last;
  }

  /** So does one of two. */
  lemma SoleAck(n: Node, peers: set<NodeId>, p: NodeId, a: AppendArgs, next: nat)
    requires Leads(n, a.term, n.log, next, peers) && EndsIn(n.log, a.term)
    requires |peers| == 2 && p in peers && a.prevLogIndex + |a.entries| == |n.log| - 1
    ensures var last, m := |n.log| - 1, OnAppendReply(n, peers, p, a, AppendReply(a.term, true));
            m == n.(nextIndex := m.nextIndex, matchIndex := m.matchIndex, commitIndex := last, pending := 1)
  {
    var last := |n.log| - 1;
    var m := n.(nextIndex := n.nextIndex[p := |n.log|], matchIndex := n.matchIndex[p := last]);
    assert Holders(m, peers, last) == {p};
    assert CanCommit(m, peers, last);
    assert NewCommitIndex(m, peers) == last;
  }

  // ---------- Delivery ----------

  /** A node that has committed something and delivered nothing. */
  predicate ReadyToDeliver(n: Node) {
    n.lastApplied == -1 && n.outbox == [] && n.delivered == [] && n.pending > 0 && 0 <= n.commitIndex < |n.log|
  }

  /** It hands its first entry to its client. */
  lemma DeliverFirst(g: Guards, s: State, n: NodeId) returns (t: State)
    requires Reachable(g, s) && WellFormed(s) && n in s.servers && ReadyToDeliver(s.node[n])
    ensures Reachable(g, t) && WellFormed(t) && t.servers == s.servers && t == s.(node := s.node[n := t.node[n]])
    ensures t.node[n].delivered == [CommitEntry(s.node[n].log[0].command, 0)]
    ensures t.node[n].outbox == s.node[n].log[1..s.node[n].commitIndex + 1] && t.node[n].outIndex == 1
  {
    var u := Prepare(g, s, n);
    assert u.node[n].outbox == s.node[n].log[..s.node[n].commitIndex + 1];
    t := HandOver(g, u, n);
    assert t.node[n].delivered == [] + [CommitEntry(s.node[n].log[0].command, 0)];
    assert u.node[n].outbox[1..] == s.node[n].log[1..s.node[n].commitIndex + 1];
  }

  /** A node that has committed two entries hands both to its client. */
  lemma DeliverBoth(g: Guards, s: State, n: NodeId) returns (t: State)
    requires Reachable(g, s) && WellFormed(s) && n in s.servers && ReadyToDeliver(s.node[n])
    requires s.node[n].commitIndex == 1
    ensures Reachable(g, t) && WellFormed(t) && t.servers == s.servers && t == s.(node := s.node[n := t.node[n]])
    ensures var log := s.node[n].log;
            t.node[n].delivered == [CommitEntry(log[0].command, 0), CommitEntry(log[1].command, 1)]
  {
    var u := DeliverFirst(g, s, n);
    t := HandOver(g, u, n);
  }
}
