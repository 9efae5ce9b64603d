/** Replication between one leader and one follower: order of delivery, and catching up. */
module CatchUp {
  import opened RaftTypes
  import opened NodeRules
  import opened Cluster
  import opened ClusterElections
  import opened ClusterLogs
  import opened ClusterCommit
  import opened ClusterLeaders
  import opened ClusterSenders
  import opened ClusterSafety

  // ---------- Order of delivery ----------

  /** What merging a prefix of length `reach` of the leader's log does to a log that matches it. */
  function MergePrefix(log: Log, lead: Log, reach: nat): Log
    requires reach <= |lead|
  {
    if Agree(log, lead, reach) then log else lead[..reach]
  }

  lemma MergePrefixOrder(log: Log, lead: Log, r: nat, q: nat)
    requires r <= |lead| && q <= |lead|
    ensures MergePrefix(MergePrefix(log, lead, r), lead, q) == MergePrefix(MergePrefix(log, lead, q), lead, r)
    ensures Agree(MergePrefix(MergePrefix(log, lead, r), lead, q), lead, r)
    ensures Agree(MergePrefix(MergePrefix(log, lead, r), lead, q), lead, q)
  {
  }

  /**
   * Two requests of one leader term whose previous entries both match can be merged in either
   * order; the result is the same and has everything that either of them conveys, so a delayed
   * shorter request never removes what a longer one brought.
   */
  lemma DeliveryOrderIrrelevant(log: Log, lead: Log, a: AppendArgs, b: AppendArgs)
    requires LogsMatch(log, lead) && CarriesFrom(a, lead) && CarriesFrom(b, lead)
    requires PrevMatches(log, a) && PrevMatches(log, b)
    ensures var x, y := Merge(log, a.prevLogIndex + 1, a.entries), Merge(log, b.prevLogIndex + 1, b.entries);
            && PrevMatches(x, b) && PrevMatches(y, a)
            && Merge(x, b.prevLogIndex + 1, b.entries) == Merge(y, a.prevLogIndex + 1, a.entries)
            && Agree(Merge(x, b.prevLogIndex + 1, b.entries), lead, Reach(a))
            && Agree(Merge(x, b.prevLogIndex + 1, b.entries), lead, Reach(b))
  {
    MergeMeaning(log, lead, a);
    MergeMeaning(log, lead, b);
    PrevAfterMerge(log, lead, a, b);
    PrevAfterMerge(log, lead, b, a);
    var x, y := MergePrefix(log, lead, Reach(a)), MergePrefix(log, lead, Reach(b));
    MergeMeaning(x, lead, b);
    MergeMeaning(y, lead, a);
    MergePrefixOrder(log, lead, Reach(a), Reach(b));
  }

  lemma PrevAfterMerge(log: Log, lead: Log, a: AppendArgs, b: AppendArgs)
    requires LogsMatch(log, lead) && CarriesFrom(a, lead) && CarriesFrom(b, lead)
    requires PrevMatches(log, a) && PrevMatches(log, b)
    ensures LogsMatch(MergePrefix(log, lead, Reach(a)), lead) && PrevMatches(MergePrefix(log, lead, Reach(a)), b)
  {
    if b.prevLogIndex >= 0 {
      assert Agree(log, lead, b.prevLogIndex + 1);
    }
  }

  /** The log holds the entries of the request where the request puts them. */
  predicate Conveys(log: Log, a: AppendArgs) {
    0 <= a.prevLogIndex + 1 && Reach(a) <= |log| && log[a.prevLogIndex + 1..Reach(a)] == a.entries
  }

  /** Merging the one request and then the other. */
  ghost predicate Commute(log: Log, a: AppendArgs, b: AppendArgs)
    requires a.prevLogIndex >= -1 && b.prevLogIndex >= -1 && PrevMatches(log, a) && PrevMatches(log, b)
  {
    var x, y := Merge(log, a.prevLogIndex + 1, a.entries), Merge(log, b.prevLogIndex + 1, b.entries);
    && PrevMatches(x, b) && PrevMatches(y, a)
    && var both := Merge(x, b.prevLogIndex + 1, b.entries);
    both == Merge(y, a.prevLogIndex + 1, a.entries) && Conveys(both, a) && Conveys(both, b)
  }

  lemma AgreeingConveys(log: Log, lead: Log, a: AppendArgs)
    requires CarriesFrom(a, lead) && Agree(log, lead, Reach(a))
    ensures Conveys(log, a)
  {
  }

  lemma CarriedCommute(log: Log, lead: Log, a: AppendArgs, b: AppendArgs)
    requires LogsMatch(log, lead) && CarriesFrom(a, lead) && CarriesFrom(b, lead)
    requires PrevMatches(log, a) && PrevMatches(log, b)
    ensures Commute(log, a, b)
  {
    DeliveryOrderIrrelevant(log, lead, a, b);
    var both := Merge(Merge(log, a.prevLogIndex + 1, a.entries), b.prevLogIndex + 1, b.entries);
    AgreeingConveys(both, lead, a);
    AgreeingConveys(both, lead, b);
  }

  /**
   * So it is for any node at any moment of a run and any two requests of one term that are ever
   * in flight, early or late.
   */
  lemma LateRequestsHarmless(g: Guards, states: seq<State>, steps: seq<Step>, i: nat, n: NodeId,
                             j: nat, m: AppendRequest, k: nat, o: AppendRequest)
    requires g.voteReplies && g.snapshots && IsRun(g, states, steps)
    requires i < |states| && j < |states| && k < |states|
    requires n in states[i].node && m in states[j].appendRequests && o in states[k].appendRequests
    requires m.args.term == o.args.term
    requires PrevMatches(states[i].node[n].log, m.args) && PrevMatches(states[i].node[n].log, o.args)
    ensures m.args.prevLogIndex >= -1 && o.args.prevLogIndex >= -1 && Commute(states[i].node[n].log, m.args, o.args)
  {
    var lead := RunRequest(g, states, steps, i, n, j, m);
    var same := RunRequest(g, states, steps, i, n, k, o);
    CarriedCommute(states[i].node[n].log, lead, m.args, o.args);
  }

  // ---------- Catching up ----------

  /** A leader and a follower of one term whose logs match. */
  predicate Paired(l: Node, f: Node, peer: NodeId) {
    && l.role == Leader && f.role == Follower && l.currentTerm == f.currentTerm
    && LogsMatch(f.log, l.log) && NextInRange(l, peer) && -1 <= l.commitIndex < |l.log|
  }

  /** Leader and follower after exchanging one request and its reply. */
  function Exchange(l: Node, f: Node, id: NodeId, peer: NodeId, peers: set<NodeId>): (Node, Node)
    requires NextInRange(l, peer)
  {
    var a := Snapshot(l, id, peer, l.currentTerm);
    var (g, reply) := OnAppendEntries(f, a);
    (OnAppendReply(l, peers, peer, a, reply), g)
  }

  predicate Accepted(l: Node, f: Node, id: NodeId, peer: NodeId)
    requires NextInRange(l, peer)
  {
    OnAppendEntries(f, Snapshot(l, id, peer, l.currentTerm)).1.success
  }

  /** The largest index at or below `next` at which the logs have the same previous term, or 0. */
  function MeetingPoint(l: Log, f: Log, next: nat): (m: nat)
    requires next <= |l|
    ensures m <= next
    ensures m == 0 || (m - 1 < |f| && f[m - 1].term == l[m - 1].term)
    ensures forall i :: m <= i < next ==> i >= |f| || f[i].term != l[i].term
  {
    if next == 0 || (next - 1 < |f| && f[next - 1].term == l[next - 1].term) then next
    else MeetingPoint(l, f, next - 1)
  }

  /** A rejected exchange changes nothing but the leader's `nextIndex`, which falls by one. */
  lemma RejectionStepsBack(l: Node, f: Node, id: NodeId, peer: NodeId, peers: set<NodeId>)
    requires Paired(l, f, peer) && !Accepted(l, f, id, peer)
    ensures var next := Lookup(l.nextIndex, peer);
            && next > 0 && MeetingPoint(l.log, f.log, next) < next
            && Exchange(l, f, id, peer, peers) == (l.(nextIndex := l.nextIndex[peer := next - 1]), f)
  {
  }

  /** An accepted exchange leaves the follower with the leader's whole log, and the leader knowing it. */
  lemma AcceptanceCompletes(l: Node, f: Node, id: NodeId, peer: NodeId, peers: set<NodeId>)
    requires Paired(l, f, peer) && Accepted(l, f, id, peer)
    ensures var (k, g) := Exchange(l, f, id, peer, peers);
            && Agree(g.log, l.log, |l.log|) && k.log == l.log
            && Lookup(k.nextIndex, peer) == |l.log| && Lookup(k.matchIndex, peer) == |l.log| - 1
            && g.commitIndex == (if l.commitIndex > f.commitIndex then l.commitIndex else f.commitIndex)
    ensures MeetingPoint(l.log, f.log, Lookup(l.nextIndex, peer)) == Lookup(l.nextIndex, peer)
  {
    var a := Snapshot(l, id, peer, l.currentTerm);
    SnapshotCarries(l, id, peer, l.currentTerm);
    AppendMeaning(f, l.log, a);
    AcceptedReply(f, a);
    AcceptedCommit(f, a);
    ReplyNoted(l, peers, peer, a);
  }

  /** An accepted request moves the commit index to the leader's, as far as the log then reaches. */
  lemma AcceptedCommit(f: Node, a: AppendArgs)
    requires OnAppendEntries(f, a).1.success
    ensures var g := OnAppendEntries(f, a).0;
            g.commitIndex == if a.leaderCommit <= f.commitIndex then f.commitIndex
                             else if a.leaderCommit < |g.log| then a.leaderCommit else |g.log| - 1
  {
  }

  lemma AcceptedReply(f: Node, a: AppendArgs)
    requires OnAppendEntries(f, a).1.success
    ensures OnAppendEntries(f, a).1.term == a.term && PrevMatches(f.log, a)
  {
  }

  lemma ReplyNoted(l: Node, peers: set<NodeId>, peer: NodeId, a: AppendArgs)
    requires l.role == Leader && a.term == l.currentTerm
    ensures var k := OnAppendReply(l, peers, peer, a, AppendReply(a.term, true));
            k.log == l.log && Lookup(k.nextIndex, peer) == Reach(a) && Lookup(k.matchIndex, peer) == Reach(a) - 1
  {
  }

  /**
   * Leader and follower exchanging requests and replies in lockstep, as in the leader's heartbeat
   * loop: it ends, after exactly as many rejections as there are indices from `nextIndex` down to
   * the point where the logs meet, with the leader's whole log in front of the follower's.
   */
  method CatchUp(leader: Node, follower: Node, id: NodeId, peer: NodeId, peers: set<NodeId>)
    returns (l: Node, f: Node, rejections: nat)
    requires Paired(leader, follower, peer)
    ensures Agree(f.log, leader.log, |leader.log|) && l.log == leader.log
    ensures Lookup(l.nextIndex, peer) == |leader.log| && Lookup(l.matchIndex, peer) == |leader.log| - 1
    ensures f.commitIndex == if leader.commitIndex > follower.commitIndex then leader.commitIndex
                             else follower.commitIndex
    ensures rejections == Lookup(leader.nextIndex, peer)
                          - MeetingPoint(leader.log, follower.log, Lookup(leader.nextIndex, peer))
    ensures rejections <= |leader.log|
  {
    l, f, rejections := leader, follower, 0;
    while !Accepted(l, f, id, peer)
      invariant Paired(l, f, peer) && f == follower && l.log == leader.log && l.commitIndex == leader.commitIndex
      invariant Lookup(l.nextIndex, peer) == Lookup(leader.nextIndex, peer) - rejections
      invariant MeetingPoint(leader.log, follower.log, Lookup(l.nextIndex, peer))
             == MeetingPoint(leader.log, follower.log, Lookup(leader.nextIndex, peer))
      decreases Lookup(l.nextIndex, peer)
    {
      RejectionStepsBack(l, f, id, peer, peers);
      var (next, same) := Exchange(l, f, id, peer, peers);
      l, f := next, same;
      rejections := rejections + 1;
    }
    AcceptanceCompletes(l, f, id, peer, peers);
    var (k, g) := Exchange(l, f, id, peer, peers);
    l, f := k, g;
  }

  /** At every moment of a run, a leader is so paired with every follower of its term. */
  lemma LeadersArePaired(states: seq<State>, steps: seq<Step>, i: nat, n: NodeId, p: NodeId)
    requires IsRun(CURRENT, states, steps) && i < |states| && n in states[i].node && p in Peers(states[i], n)
    requires p in states[i].node
    requires states[i].node[n].role == Leader && states[i].node[p].role == Follower
    requires states[i].node[n].currentTerm == states[i].node[p].currentTerm
    ensures Paired(states[i].node[n], states[i].node[p], p)
  {
    LogMatching(CURRENT, states, steps, i, i, p, n);
    IndicesBounded(states, steps, i, n, p);
  }
}
