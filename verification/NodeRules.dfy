/**
 * What one critical section of a node does to its state, as functions on values: the
 * specification of the methods of `ConsensusModule` and the building blocks of the cluster.
 */
module NodeRules {
  import opened RaftTypes

  /**
   * `pending` counts the notifications waiting for the commit sender, `outbox` is the slice it is
   * still handing to the client, `outIndex` the index announced with its first entry, and
   * `delivered` is what the client has received.
   */
  datatype Node = Node(currentTerm: nat, votedFor: int, role: Role, log: Log, commitIndex: int, lastApplied: int,
                       nextIndex: map<NodeId, int>, matchIndex: map<NodeId, int>,
                       pending: nat, outIndex: int, outbox: Log, delivered: seq<CommitEntry>)

  const FRESH := Node(0, NOBODY, Follower, [], -1, -1, map[], map[], 0, 0, [], [])

  /** Reading an absent key of a Go map yields zero. */
  function Lookup(m: map<NodeId, int>, k: NodeId): int {
    if k in m then m[k] else 0
  }

  /** The map that sends every one of `keys` to `value`. */
  ghost function Fill(keys: set<NodeId>, value: int): (m: map<NodeId, int>)
    ensures m.Keys == keys && forall k :: k in keys ==> m[k] == value
  {
    if keys == {} then map[] else var k :| k in keys; Fill(keys - {k}, value)[k := value]
  }

  function Min(a: int, b: int): int {
    if a < b then a else b
  }

  // ---------- Elections ----------

  function LastIndex(log: Log): int {
    |log| - 1
  }

  function LastTerm(log: Log): int {
    if log == [] then -1 else log[|log| - 1].term
  }

  /** The candidate's log, as it describes it, is at least as recent as `log`. */
  predicate UpToDate(a: VoteArgs, log: Log) {
    a.lastLogTerm > LastTerm(log) || (a.lastLogTerm == LastTerm(log) && a.lastLogIndex >= LastIndex(log))
  }

  function BecomeFollower(n: Node, term: nat): Node {
    n.(role := Follower, currentTerm := term, votedFor := NOBODY)
  }

  function CatchUpTerm(n: Node, term: nat): Node {
    if term > n.currentTerm then BecomeFollower(n, term) else n
  }

  predicate GrantsVote(n: Node, a: VoteArgs) {
    && n.currentTerm == a.term
    && (n.votedFor == NOBODY || n.votedFor == a.candidateId)
    && UpToDate(a, n.log)
  }

  function OnRequestVote(n: Node, a: VoteArgs): (Node, VoteReply) {
    var m := CatchUpTerm(n, a.term);
    if GrantsVote(m, a) then (m.(votedFor := a.candidateId), VoteReply(m.currentTerm, true))
    else (m, VoteReply(m.currentTerm, false))
  }

  function StartElection(n: Node, id: NodeId): Node {
    n.(role := Candidate, currentTerm := n.currentTerm + 1, votedFor := id)
  }

  ghost function StartLeader(n: Node, peers: set<NodeId>): Node {
    n.(role := Leader,
       nextIndex := n.nextIndex + Fill(peers, |n.log|),
       matchIndex := n.matchIndex + Fill(peers, -1))
  }

  predicate Outvotes(votes: nat, peers: set<NodeId>) {
    votes * 2 > |peers| + 1
  }

  /** A vote reply is counted only by a candidate, in the election of term `saved` it belongs to. */
  predicate CountsVote(n: Node, saved: nat, r: VoteReply) {
    n.role == Candidate && r.term == saved && r.granted
  }

  /**
   * The reply of an election of term `saved` is counted, or makes the node yield to a term that it
   * has already reached: the two things that only a reply of the present election may do.
   */
  predicate VoteReplyBears(n: Node, saved: nat, r: VoteReply) {
    CountsVote(n, saved, r) || (n.role == Candidate && saved < r.term <= n.currentTerm)
  }

  /** Handles a vote reply given the votes received so far; also yields the new number of votes. */
  ghost function OnVoteReply(n: Node, peers: set<NodeId>, saved: nat, votes: nat, r: VoteReply): (Node, nat) {
    if n.role != Candidate then (n, votes)
    else if r.term > saved then (BecomeFollower(n, r.term), votes)
    else if !CountsVote(n, saved, r) then (n, votes)
    else if Outvotes(votes + 1, peers) then (StartLeader(n, peers), votes + 1)
    else (n, votes + 1)
  }

  // ---------- Replication ----------

  function Submit(n: Node, command: Command): (Node, bool) {
    if n.role == Leader then (n.(log := n.log + [LogEntry(command, n.currentTerm)]), true) else (n, false)
  }

  predicate NextInRange(n: Node, peer: NodeId) {
    0 <= Lookup(n.nextIndex, peer) <= |n.log|
  }

  /** The request a heartbeat goroutine started in term `saved` builds for `peer`. */
  function Snapshot(n: Node, id: NodeId, peer: NodeId, saved: nat): AppendArgs
    requires NextInRange(n, peer)
  {
    var ni := Lookup(n.nextIndex, peer);
    AppendArgs(saved, id, ni - 1, if ni > 0 then n.log[ni - 1].term else -1, n.log[ni..], n.commitIndex)
  }

  predicate PrevMatches(log: Log, a: AppendArgs) {
    a.prevLogIndex == -1
    || (0 <= a.prevLogIndex < |log| && a.prevLogTerm == log[a.prevLogIndex].term)
  }

  /** How many leading `entries` already sit in `log` from index `at` on, judged by their terms. */
  function Matching(log: Log, at: nat, entries: Log): (k: nat)
    requires at <= |log|
    ensures k <= |entries| && at + k <= |log|
    ensures forall j :: 0 <= j < k ==> log[at + j].term == entries[j].term
    ensures k < |entries| && at + k < |log| ==> log[at + k].term != entries[k].term
    decreases |entries|
  {
    if entries == [] || at == |log| || log[at].term != entries[0].term then 0
    else 1 + Matching(log, at + 1, entries[1..])
  }

  /** Entries are only cut off when one of the new entries conflicts with them. */
  function Merge(log: Log, at: nat, entries: Log): Log
    requires at <= |log|
  {
    var k := Matching(log, at, entries);
    if k < |entries| then log[..at + k] + entries[k..] else log
  }

  /** From index `at` on the log has entries of the same terms as the first `k` of `entries`. */
  predicate SameTerms(log: Log, at: nat, entries: Log, k: nat)
    requires k <= |entries|
  {
    at + k <= |log| && forall j :: 0 <= j < k ==> log[at + j].term == entries[j].term
  }

  /**
   * What merging `entries` at index `at` leaves of any log: the log itself if it has entries of
   * those terms there, and otherwise a log that ends with the last new entry, in which old entries
   * stand exactly as far as their terms keep agreeing with the new ones.
   */
  predicate Spliced(log: Log, at: nat, entries: Log, after: Log)
    requires at <= |log|
  {
    if SameTerms(log, at, entries, |entries|) then after == log
    else |after| == at + |entries| && after[..at] == log[..at] && forall j :: 0 <= j < |entries| ==>
           after[at + j] == if SameTerms(log, at, entries, j + 1) then log[at + j] else entries[j]
  }

  lemma MergeSplices(log: Log, at: nat, entries: Log)
    requires at <= |log|
    ensures Spliced(log, at, entries, Merge(log, at, entries))
  {
    var k, after := Matching(log, at, entries), Merge(log, at, entries);
    forall j | 0 <= j < |entries| && k < |entries|
      ensures after[at + j] == if SameTerms(log, at, entries, j + 1) then log[at + j] else entries[j]
    {
    }
  }

  function AcceptEntries(n: Node, a: AppendArgs): Node
    requires PrevMatches(n.log, a)
  {
    var m := n.(log := Merge(n.log, a.prevLogIndex + 1, a.entries));
    if a.leaderCommit > m.commitIndex then
      m.(commitIndex := Min(a.leaderCommit, |m.log| - 1), pending := m.pending + 1)
    else m
  }

  function OnAppendEntries(n: Node, a: AppendArgs): (Node, AppendReply) {
    var m := CatchUpTerm(n, a.term);
    if a.term != m.currentTerm then (m, AppendReply(m.currentTerm, false))
    else
      var f := if m.role != Follower then BecomeFollower(m, a.term) else m;
      if PrevMatches(f.log, a) then (AcceptEntries(f, a), AppendReply(f.currentTerm, true))
      else (f, AppendReply(f.currentTerm, false))
  }

  // ---------- Commitment and delivery ----------

  function Holders(n: Node, peers: set<NodeId>, i: int): set<NodeId> {
    set p | p in peers && Lookup(n.matchIndex, p) >= i
  }

  /** A leader may commit index `i`: an entry of its own term, held by a majority counting itself. */
  predicate CanCommit(n: Node, peers: set<NodeId>, i: nat)
    requires i < |n.log|
  {
    n.log[i].term == n.currentTerm && Outvotes(1 + |Holders(n, peers, i)|, peers)
  }

  /** The largest index at or below `hi` that may be committed, or the present commit index. */
  function LastCommittable(n: Node, peers: set<NodeId>, hi: int): (c: int)
    requires -1 <= n.commitIndex <= hi < |n.log|
    ensures n.commitIndex <= c <= hi
    ensures c > n.commitIndex ==> CanCommit(n, peers, c)
    ensures forall i :: c < i <= hi ==> !CanCommit(n, peers, i)
    decreases hi
  {
    if hi == n.commitIndex || CanCommit(n, peers, hi) then hi else LastCommittable(n, peers, hi - 1)
  }

  function NewCommitIndex(n: Node, peers: set<NodeId>): int {
    if -1 <= n.commitIndex < |n.log| then LastCommittable(n, peers, |n.log| - 1) else n.commitIndex
  }

  /** Every peer of `q` is known to hold index `i`. */
  predicate AllHold(matchIndex: map<NodeId, int>, q: set<NodeId>, i: int) {
    forall p :: p in q ==> (if p in matchIndex then matchIndex[p] else 0) >= i
  }

  /** Together with the leader the peers of `q` are a majority. */
  predicate Suffice(q: set<NodeId>, peers: set<NodeId>) {
    q <= peers && (1 + |q|) * 2 > |peers| + 1
  }

  /** The commit loop reaches every entry of the present term that a majority is known to hold. */
  lemma CommitReaches(n: Node, peers: set<NodeId>, i: int, q: set<NodeId>)
    requires -1 <= n.commitIndex < i < |n.log| && n.log[i].term == n.currentTerm
    requires Suffice(q, peers) && AllHold(n.matchIndex, q, i)
    ensures NewCommitIndex(n, peers) >= i
  {
    var holders := Holders(n, peers, i);
    assert q <= holders;
    SubsetSize(q, holders);
    assert CanCommit(n, peers, i);
  }

  lemma {:induction false} SubsetSize(a: set<NodeId>, b: set<NodeId>)
    requires a <= b
    ensures |a| <= |b|
  {
    if a != {} {
      var p :| p in a;
      SubsetSize(a - {p}, b - {p});
    }
  }

  /** And it reaches no other. */
  lemma CommitHeld(n: Node, peers: set<NodeId>) returns (q: set<NodeId>)
    requires -1 <= n.commitIndex && NewCommitIndex(n, peers) != n.commitIndex
    ensures var c := NewCommitIndex(n, peers);
            && n.commitIndex < c < |n.log| && n.log[c].term == n.currentTerm
            && Suffice(q, peers) && AllHold(n.matchIndex, q, c)
  {
    q := Holders(n, peers, NewCommitIndex(n, peers));
  }

  function AdvanceCommit(n: Node, peers: set<NodeId>): Node {
    var c := NewCommitIndex(n, peers);
    if c != n.commitIndex then n.(commitIndex := c, pending := n.pending + 1) else n
  }

  /** Handles the reply of `peer` to request `a`, which was built in term `a.term`. */
  function OnAppendReply(n: Node, peers: set<NodeId>, peer: NodeId, a: AppendArgs, r: AppendReply): Node {
    if r.term > n.currentTerm then BecomeFollower(n, r.term)
    else if n.role != Leader || a.term != r.term then n
    else if r.success then
      var next := a.prevLogIndex + 1 + |a.entries|;
      AdvanceCommit(n.(nextIndex := n.nextIndex[peer := next], matchIndex := n.matchIndex[peer := next - 1]), peers)
    else n.(nextIndex := n.nextIndex[peer := a.prevLogIndex])
  }

  /**
   * The reply to request `a` is noted as progress, or moves `nextIndex` to where the log does not
   * reach: the two things that only a reply of the leader's present term may do.
   */
  predicate AppendReplyBears(n: Node, a: AppendArgs, r: AppendReply) {
    && n.role == Leader && r.term == a.term && r.term <= n.currentTerm
    && (r.success || a.prevLogIndex > |n.log|)
  }

  predicate ApplyInRange(n: Node) {
    n.commitIndex > n.lastApplied ==> 0 <= n.lastApplied + 1 && n.commitIndex < |n.log|
  }

  /** The commit sender takes a notification and the slice of entries that became ready. */
  function TakeCommitted(n: Node): Node
    requires n.pending > 0 && ApplyInRange(n)
  {
    n.(pending := n.pending - 1,
       outIndex := n.lastApplied + 1,
       outbox := if n.commitIndex > n.lastApplied then n.log[n.lastApplied + 1..n.commitIndex + 1] else [],
       lastApplied := if n.commitIndex > n.lastApplied then n.commitIndex else n.lastApplied)
  }

  /** The commit sender hands its next entry to the client. */
  function Deliver(n: Node): Node
    requires n.outbox != []
  {
    n.(delivered := n.delivered + [CommitEntry(n.outbox[0].command, n.outIndex)],
       outIndex := n.outIndex + 1,
       outbox := n.outbox[1..])
  }

  predicate OutboxInRange(n: Node) {
    0 <= n.outIndex && n.outIndex + |n.outbox| <= |n.log|
  }

  /** The slice being sent may share memory with the log and then shows whatever the log holds now. */
  function ShowLogInOutbox(n: Node): Node
    requires OutboxInRange(n)
  {
    n.(outbox := n.log[n.outIndex..n.outIndex + |n.outbox|])
  }
}
