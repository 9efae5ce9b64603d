/**
 * A cluster of more than one server can always recover: whatever has been lost, delayed or
 * rejected so far, the run can go on so that every server delivers a command not yet delivered.
 */
module Recovery {
  import opened RaftTypes
  import opened NodeRules
  import opened Cluster
  import opened ClusterElections
  import opened ClusterLogs
  import opened ClusterChoice
  import opened ClusterCommit
  import opened ClusterLeaders
  import opened ClusterSenders
  import opened ClusterSafety
  import opened ClusterOrigins
  import opened ClusterRuns
  import opened CommitComplete
  import opened CatchUp
  import opened Continuations
  import opened Notifications

  // ---------- A leader in the latest term ----------

  /** Node `n` is in the latest term. */
  ghost predicate Latest(s: State, n: NodeId) {
    n in s.node && forall k :: k in s.node ==> s.node[k].currentTerm <= s.node[n].currentTerm
  }

  ghost predicate LeadsAll(s: State, l: NodeId) {
    Latest(s, l) && l in s.servers && s.node[l].role == Leader
  }

  lemma SomeLatest(s: State) returns (n: NodeId)
    requires s.node.Keys != {}
    ensures Latest(s, n)
  {
    n :| n in s.node;
    var rest := s.node.Keys;
    while rest != {}
      invariant rest <= s.node.Keys && n in s.node
      invariant forall k :: k in s.node && k !in rest ==> s.node[k].currentTerm <= s.node[n].currentTerm
      decreases |rest|
    {
      var k :| k in rest;
      if s.node[k].currentTerm > s.node[n].currentTerm {
        n := k;
      }
      rest := rest - {k};
    }
  }

  /** The log of node `n` is at least as recent as any other. */
  ghost predicate Newest(s: State, n: NodeId) {
    n in s.node && forall k :: k in s.node ==> AtLeastAsNew(s.node[n].log, s.node[k].log)
  }

  lemma SomeNewest(s: State) returns (n: NodeId)
    requires s.node.Keys != {}
    ensures Newest(s, n)
  {
    n :| n in s.node;
    var rest := s.node.Keys;
    while rest != {}
      invariant rest <= s.node.Keys && n in s.node
      invariant forall k :: k in s.node && k !in rest ==> AtLeastAsNew(s.node[n].log, s.node[k].log)
      decreases |rest|
    {
      var k :| k in rest;
      if !AtLeastAsNew(s.node[n].log, s.node[k].log) {
        n := k;
      }
      rest := rest - {k};
    }
  }

  /** The node has entered the term, not as a leader, with its log as it was. */
  predicate Entered(n: Node, before: Node, term: nat) {
    n.currentTerm == term && n.role != Leader && n.log == before.log
  }

  lemma AskedEnters(n: Node, a: VoteArgs)
    requires n.currentTerm < a.term
    ensures Entered(OnRequestVote(n, a).0, n, a.term)
    ensures UpToDate(a, n.log) ==> OnRequestVote(n, a).1 == VoteReply(a.term, true)
  {
  }

  /** Election `e` of node `p`, in which those of `rest` have not been asked yet. */
  ghost predicate Calling(t: State, x: State, e: nat, p: NodeId, term: nat, rest: set<NodeId>) {
    && x.servers == t.servers && x.node.Keys == t.node.Keys && rest <= t.servers
    && e < |x.elections| && x.elections[e] == Election(p, term, 1, Peers(t, p), {}) && rest <= Peers(t, p)
    && (forall n :: n in x.node && n !in rest ==> Entered(x.node[n], t.node[n], term))
    && (forall n :: n in rest && n in x.node ==> x.node[n] == t.node[n])
  }

  lemma CallsNext(t: State, x: State, y: State, e: nat, p: NodeId, term: nat, rest: set<NodeId>, v: NodeId)
    requires Calling(t, x, e, p, term, rest) && v in rest && v in x.node && v in y.node
    requires y.servers == x.servers && y.elections == x.elections && y.node == x.node[v := y.node[v]]
    requires Entered(y.node[v], x.node[v], term)
    ensures Calling(t, y, e, p, term, rest - {v})
  {
  }

  lemma StartCalling(s: State, t: State, p: NodeId) returns (x: State)
    requires Along(s, t) && p in t.servers && t.node[p].role != Leader
    ensures Along(s, x) && Calling(t, x, |t.elections|, p, t.node[p].currentTerm + 1, Peers(t, p))
  {
    Go(s, t, Timeout(p));
    x := Apply(t, Timeout(p));
  }

  /** Node `p`, of the latest term, campaigns and asks everybody, and so unseats all leaders. */
  lemma Unseat(s: State, t: State, p: NodeId) returns (x: State)
    requires Along(s, t) && Latest(t, p) && t.node[p].role != Leader
    ensures Along(s, x) && x.servers == t.servers && x.node.Keys == t.node.Keys
    ensures forall n :: n in x.node ==> Entered(x.node[n], t.node[n], t.node[p].currentTerm + 1)
  {
    var term, e := t.node[p].currentTerm + 1, |t.elections|;
    x := StartCalling(s, t, p);
    var rest := Peers(t, p);
    while rest != {}
      invariant Along(s, x) && Calling(t, x, e, p, term, rest)
      decreases |rest|
    {
      var v :| v in rest;
      AskedEnters(x.node[v], Claim(x.elections[e], x.node[p].log));
      var y, m := Ask(s, x, e, v);
      CallsNext(t, x, y, e, p, term, rest, v);
      x := y;
      rest := rest - {v};
    }
  }

  /** Node `b` campaigns in election `e`, or has won it; those of `rest` have not been asked yet. */
  ghost predicate Campaigns(t: State, x: State, e: nat, b: NodeId, term: nat, rest: set<NodeId>) {
    && x.servers == t.servers && x.node.Keys == t.node.Keys && b in x.node && b !in rest
    && e < |x.elections| && x.elections[e].candidate == b && x.elections[e].term == term
    && rest <= x.elections[e].waiting
    && x.node[b].currentTerm == term && x.node[b].log == t.node[b].log && x.node[b].role != Follower
    && (forall n :: n in x.node ==> x.node[n].currentTerm <= term)
    && (forall n :: n in rest ==> n in x.node && x.node[n] == t.node[n])
  }

  ghost predicate Progressing(t: State, x: State, e: nat, b: NodeId, term: nat, rest: set<NodeId>) {
    && Campaigns(t, x, e, b, term, rest)
    && (x.node[b].role == Candidate ==> Undecided(x.elections[e].votesReceived, Peers(t, b), rest))
  }

  predicate Undecided(votes: nat, peers: set<NodeId>, rest: set<NodeId>) {
    rest <= peers && votes == 1 + |peers - rest| && (rest != peers ==> !Outvotes(votes, peers))
  }

  /** Among nodes of one term that do not lead, the one with the newest log is elected. */
  lemma Win(s: State, t: State, b: NodeId, term: nat) returns (x: State)
    requires Along(s, t) && Newest(t, b) && |t.servers| > 1
    requires forall n :: n in t.node ==> t.node[n].currentTerm == term && t.node[n].role != Leader
    ensures Along(s, x) && x.servers == t.servers && LeadsAll(x, b)
  {
    var u := StartCampaign(s, t, b, term);
    x := AskRest(s, t, u, |t.elections|, b, term, Peers(t, b));
    PeersOf(t, b);
    AllAsked(t, x, |t.elections|, b, term + 1);
  }

  lemma {:induction false} AskRest(s: State, t: State, x: State, e: nat, b: NodeId, term: nat, rest: set<NodeId>)
    returns (y: State)
    requires Along(s, x) && Progressing(t, x, e, b, term + 1, rest) && Newest(t, b)
    requires forall n :: n in rest ==> n in t.node && t.node[n].currentTerm == term
    ensures Along(s, y) && Progressing(t, y, e, b, term + 1, {})
    decreases |rest|
  {
    if v :| v in rest {
      var u := NextVote(s, t, x, e, b, term, rest, v);
      y := AskRest(s, t, u, e, b, term, rest - {v});
    } else {
      assert rest == {};
      y := x;
    }
  }

  lemma StartCampaign(s: State, t: State, b: NodeId, term: nat) returns (x: State)
    requires Along(s, t) && b in t.node
    requires forall n :: n in t.node ==> t.node[n].currentTerm == term && t.node[n].role != Leader
    ensures Along(s, x) && Progressing(t, x, |t.elections|, b, term + 1, Peers(t, b))
  {
    Go(s, t, Timeout(b));
    x := Apply(t, Timeout(b));
    assert Peers(t, b) - Peers(t, b) == {};
  }

  /** With everybody's vote the candidate has won. */
  lemma AllAsked(t: State, x: State, e: nat, b: NodeId, term: nat)
    requires Progressing(t, x, e, b, term, {}) && |Peers(t, b)| > 0 && b in t.servers
    ensures LeadsAll(x, b)
  {
    assert Peers(t, b) - {} == Peers(t, b);
  }

  lemma NextVote(s: State, t: State, x: State, e: nat, b: NodeId, term: nat, rest: set<NodeId>, v: NodeId)
    returns (y: State)
    requires Along(s, x) && Progressing(t, x, e, b, term + 1, rest) && v in rest && v in t.node
    requires Newest(t, b) && t.node[v].currentTerm == term
    ensures Along(s, y) && Progressing(t, y, e, b, term + 1, rest - {v})
  {
    AskedEnters(x.node[v], Claim(x.elections[e], x.node[b].log));
    var m, u;
    u, m := Ask(s, x, e, v);
    AskKeeps(t, x, u, e, b, term + 1, rest, v);
    if u.node[b].role == Candidate {
      y := Hear(s, u, m);
      HearKeeps(t, u, y, e, b, term + 1, rest, v);
    } else {
      y := u;
    }
  }

  lemma AskKeeps(t: State, x: State, u: State, e: nat, b: NodeId, term: nat, rest: set<NodeId>, v: NodeId)
    requires Campaigns(t, x, e, b, term, rest) && v in rest
    requires u.servers == x.servers && u.elections == x.elections && v in u.node && u.node == x.node[v := u.node[v]]
    requires u.node[v].currentTerm == term
    ensures Campaigns(t, u, e, b, term, rest - {v}) && u.node[b] == x.node[b]
  {
  }

  lemma OutcomeFrame(n: Node, b: Election, peers: set<NodeId>)
    requires n.role == Candidate
    ensures var m := Outcome(n, b, peers);
            && m.currentTerm == n.currentTerm && m.log == n.log
            && m.role == if Outvotes(b.votesReceived + 1, peers) then Leader else Candidate
  {
  }

  lemma CandidateMoved(t: State, u: State, y: State, e: nat, b: NodeId, term: nat, rest: set<NodeId>, v: NodeId)
    requires Campaigns(t, u, e, b, term, rest) && v !in rest && b in y.node
    requires y.servers == u.servers && y.elections == u.elections[e := Counted(u.elections[e], v)]
    requires y.node == u.node[b := y.node[b]] && y.node[b].currentTerm == term && y.node[b].log == u.node[b].log
    requires y.node[b].role != Follower
    ensures Campaigns(t, y, e, b, term, rest)
  {
  }

  lemma HearKeeps(t: State, u: State, y: State, e: nat, b: NodeId, term: nat, rest: set<NodeId>, v: NodeId)
    requires Campaigns(t, u, e, b, term, rest - {v}) && v in rest && u.node[b].role == Candidate
    requires Undecided(u.elections[e].votesReceived, Peers(t, b), rest)
    requires y.servers == u.servers && y.elections == u.elections[e := Counted(u.elections[e], v)]
    requires y.node == u.node[b := Outcome(u.node[b], u.elections[e], Peers(t, b))]
    ensures Progressing(t, y, e, b, term, rest - {v})
  {
    OutcomeFrame(u.node[b], u.elections[e], Peers(t, b));
    CandidateMoved(t, u, y, e, b, term, rest - {v}, v);
    if y.node[b].role == Candidate {
      OneMoreVote(u.elections[e].votesReceived, Peers(t, b), rest, v);
    }
  }

  lemma OneMoreVote(votes: nat, peers: set<NodeId>, rest: set<NodeId>, v: NodeId)
    requires Undecided(votes, peers, rest) && v in rest && !Outvotes(votes + 1, peers)
    ensures Undecided(votes + 1, peers, rest - {v})
  {
    assert peers - (rest - {v}) == (peers - rest) + {v};
  }

  /** The run can go on to where some node leads in the latest term. */
  lemma Command(s: State, t: State) returns (x: State, l: NodeId)
    requires Along(s, t) && |t.servers| > 1
    ensures Along(s, x) && x.servers == t.servers && LeadsAll(x, l)
  {
    var p := SomeLatest(t);
    if k :| LeadsAll(t, k) {
      x, l := t, k;
    } else {
      assert !LeadsAll(t, p);
      var u := Unseat(s, t, p);
      l := SomeNewest(u);
      x := Win(s, u, l, t.node[p].currentTerm + 1);
    }
  }

  // ---------- Bringing the others up to date ----------

  /** What the node becomes as soon as a leader of the term addresses it. */
  function Joined(f: Node, term: nat): Node {
    if f.currentTerm < term || f.role != Follower then BecomeFollower(f, term) else f
  }

  lemma JoinsFirst(l: Node, f: Node, id: NodeId, peer: NodeId, peers: set<NodeId>)
    requires NextInRange(l, peer) && f.currentTerm <= l.currentTerm
    ensures Exchange(l, f, id, peer, peers) == Exchange(l, Joined(f, l.currentTerm), id, peer, peers)
  {
  }

  // What the invariants say of single nodes.

  lemma NodeFacts(s: State, t: State, n: NodeId)
    requires Along(s, t) && n in t.node
    ensures var m := t.node[n]; -1 <= m.lastApplied <= m.commitIndex < |m.log| && DeliverySound(m) && Notified(m)
  {
    Invariants(s, t);
    assert NodeCommitted(t, t.node[n]) && DeliverySound(t.node[n]);
  }

  lemma LeaderFacts(s: State, t: State, l: NodeId)
    requires Along(s, t) && l in t.node && t.node[l].role == Leader
    ensures HasReached(t.node[l], Peers(t, l))
    ensures forall p :: p in Peers(t, l) ==> NextInRange(t.node[l], p)
  {
    Invariants(s, t);
    forall p | p in Peers(t, l) ensures NextInRange(t.node[l], p) {
      assert ProgressAt(t, l, p);
    }
  }

  lemma PairMatches(s: State, t: State, l: NodeId, p: NodeId)
    requires Along(s, t) && l in t.node && p in t.node
    ensures LogsMatch(t.node[p].log, t.node[l].log)
  {
    Invariants(s, t);
    SoundLogsMatch(t, t.node[p].log, t.node[l].log);
  }

  lemma ArePaired(s: State, t: State, l: NodeId, p: NodeId)
    requires Along(s, t) && LeadsAll(t, l) && p in Peers(t, l)
    ensures Paired(t.node[l], Joined(t.node[p], t.node[l].currentTerm), p)
  {
    LeaderFacts(s, t, l);
    NodeFacts(s, t, l);
    PairMatches(s, t, l, p);
  }

  /** The peer has the leader's log and at least that commit index, and the leader knows of the log. */
  predicate Synced(k: Node, f: Node, p: NodeId, commit: int) {
    Lookup(k.matchIndex, p) == |k.log| - 1 && Agree(f.log, k.log, |k.log|) && f.commitIndex >= commit
  }

  /** The leader leads on, and has learned nothing new of peers other than `p`. */
  ghost predicate LeadsStill(l: Node, k: Node, p: NodeId) {
    && k.role == Leader && k.currentTerm == l.currentTerm && k.log == l.log && k.commitIndex >= l.commitIndex
    && forall q: NodeId :: q != p ==> Lookup(k.matchIndex, q) == Lookup(l.matchIndex, q)
  }

  /** An exchange brings the peer up to date, or moves `nextIndex` back by one. */
  lemma ExchangeMeaning(l: Node, f: Node, id: NodeId, peer: NodeId, peers: set<NodeId>)
    requires Paired(l, Joined(f, l.currentTerm), peer) && f.currentTerm <= l.currentTerm
    ensures var (k, g) := Exchange(l, f, id, peer, peers);
            && LeadsStill(l, k, peer) && g.currentTerm == l.currentTerm
            && if Accepted(l, Joined(f, l.currentTerm), id, peer) then Synced(k, g, peer, l.commitIndex)
               else Lookup(k.nextIndex, peer) < Lookup(l.nextIndex, peer)
  {
    var j := Joined(f, l.currentTerm);
    JoinsFirst(l, f, id, peer, peers);
    ExchangeLeads(l, j, id, peer, peers);
    if Accepted(l, j, id, peer) {
      AcceptanceCompletes(l, j, id, peer, peers);
    } else {
      RejectionStepsBack(l, j, id, peer, peers);
    }
  }

  lemma ExchangeLeads(l: Node, f: Node, id: NodeId, peer: NodeId, peers: set<NodeId>)
    requires Paired(l, f, peer)
    ensures var (k, g) := Exchange(l, f, id, peer, peers); LeadsStill(l, k, peer) && g.currentTerm == l.currentTerm
  {
    var a := Snapshot(l, id, peer, l.currentTerm);
    AnswerEffect(l, peers, peer, a, OnAppendEntries(f, a).1);
  }

  ghost predicate OnlyTwo(t: State, x: State, l: NodeId, p: NodeId) {
    && x.servers == t.servers && x.node.Keys == t.node.Keys && t.rounds <= x.rounds
    && forall n :: n in t.node && n != l && n != p ==> x.node[n] == t.node[n]
  }

  /** The leader builds a request for the peer, which handles it, and handles the answer. */
  lemma ExchangeOn(s: State, t: State, l: NodeId, p: NodeId) returns (x: State)
    requires Along(s, t) && LeadsAll(t, l) && p in Peers(t, l) && Round(l, t.node[l].currentTerm) in t.rounds
    requires NextInRange(t.node[l], p)
    ensures Along(s, x) && OnlyTwo(t, x, l, p)
    ensures (x.node[l], x.node[p]) == Exchange(t.node[l], t.node[p], l, p, Peers(t, l))
  {
    var r := Round(l, t.node[l].currentTerm);
    var a := Snapshot(t.node[l], l, p, r.term);
    var q := AppendRequest(p, a);
    Go(s, t, SendAppend(r, p));
    var u := Apply(t, SendAppend(r, p));
    assert q in u.appendRequests;
    Go(s, u, RecvAppend(q));
    var w, m := Apply(u, RecvAppend(q)), AppendAnswer(p, a, OnAppendEntries(t.node[p], a).1);
    assert m in w.appendAnswers && w.node[l] == t.node[l];
    Go(s, w, RecvAppendAnswer(m));
    x := Apply(w, RecvAppendAnswer(m));
  }

  /** Leader and peer exchange requests and answers until the peer is up to date. */
  lemma {:induction false} Sync(s: State, t: State, l: NodeId, p: NodeId) returns (x: State)
    requires Along(s, t) && LeadsAll(t, l) && p in Peers(t, l) && Round(l, t.node[l].currentTerm) in t.rounds
    ensures Along(s, x) && LeadsAll(x, l) && OnlyTwo(t, x, l, p)
    ensures LeadsStill(t.node[l], x.node[l], p) && Synced(x.node[l], x.node[p], p, t.node[l].commitIndex)
    decreases Lookup(t.node[l].nextIndex, p)
  {
    ArePaired(s, t, l, p);
    ExchangeMeaning(t.node[l], t.node[p], l, p, Peers(t, l));
    x := ExchangeOn(s, t, l, p);
    if !Accepted(t.node[l], Joined(t.node[p], t.node[l].currentTerm), l, p) {
      x := Sync(s, x, l, p);
    }
  }

  /** All peers except those of `rest` are up to date. */
  ghost predicate AllSynced(t: State, l: NodeId, rest: set<NodeId>, commit: int)
    requires l in t.node
  {
    forall p :: p in Peers(t, l) && p !in rest ==> p in t.node && Synced(t.node[l], t.node[p], p, commit)
  }

  lemma SyncKeepsOthers(t: State, x: State, l: NodeId, p: NodeId, rest: set<NodeId>, commit: int)
    requires l in t.node && l in x.node && p in x.node && OnlyTwo(t, x, l, p) && l != p
    requires LeadsStill(t.node[l], x.node[l], p) && commit <= t.node[l].commitIndex
    requires AllSynced(t, l, rest, commit) && Synced(x.node[l], x.node[p], p, t.node[l].commitIndex)
    ensures AllSynced(x, l, rest - {p}, commit)
  {
  }

  lemma {:induction false} SyncRest(s: State, t: State, l: NodeId, rest: set<NodeId>, commit: int) returns (x: State)
    requires Along(s, t) && LeadsAll(t, l) && rest <= Peers(t, l) && Round(l, t.node[l].currentTerm) in t.rounds
    requires AllSynced(t, l, rest, commit) && commit <= t.node[l].commitIndex
    ensures Along(s, x) && LeadsAll(x, l) && x.servers == t.servers && AllSynced(x, l, {}, commit)
    ensures x.node[l].log == t.node[l].log && x.node[l].currentTerm == t.node[l].currentTerm
    decreases |rest|
  {
    if p :| p in rest {
      var u := Sync(s, t, l, p);
      SyncKeepsOthers(t, u, l, p, rest, commit);
      x := SyncRest(s, u, l, rest - {p}, commit);
    } else {
      assert rest == {};
      x := t;
    }
  }

  /** A round of heartbeats, repeated as often as necessary, brings all peers up to date. */
  lemma SyncAll(s: State, t: State, l: NodeId) returns (x: State)
    requires Along(s, t) && LeadsAll(t, l)
    ensures Along(s, x) && LeadsAll(x, l) && x.servers == t.servers && AllSynced(x, l, {}, t.node[l].commitIndex)
    ensures x.node[l].log == t.node[l].log && x.node[l].currentTerm == t.node[l].currentTerm
  {
    Go(s, t, StartRound(l));
    var u := Apply(t, StartRound(l));
    x := SyncRest(s, u, l, Peers(u, l), t.node[l].commitIndex);
  }

  /** What all peers are known to hold is committed, if it ends in an entry of the leader's term. */
  lemma SyncedCommits(s: State, t: State, l: NodeId, commit: int)
    requires Along(s, t) && LeadsAll(t, l) && AllSynced(t, l, {}, commit) && |t.servers| > 1
    requires t.node[l].log != [] && t.node[l].log[|t.node[l].log| - 1].term == t.node[l].currentTerm
    ensures t.node[l].commitIndex >= |t.node[l].log| - 1
  {
    LeaderFacts(s, t, l);
    PeersOf(t, l);
    assert MayReach(t.node[l], Peers(t, l), |t.node[l].log| - 1, Peers(t, l));
  }

  /** Every server has the whole log of node `l` and has committed all of it. */
  ghost predicate AllCommitted(t: State, log: Log) {
    forall n :: n in t.servers ==>
      n in t.node && Agree(t.node[n].log, log, |log|) && t.node[n].commitIndex >= |log| - 1
  }

  lemma CommitEverywhere(s: State, t: State, l: NodeId) returns (x: State)
    requires Along(s, t) && LeadsAll(t, l) && |t.servers| > 1
    requires t.node[l].log != [] && t.node[l].log[|t.node[l].log| - 1].term == t.node[l].currentTerm
    ensures Along(s, x) && x.servers == t.servers && AllCommitted(x, t.node[l].log)
  {
    var u := SyncAll(s, t, l);
    SyncedCommits(s, u, l, t.node[l].commitIndex);
    x := SyncAll(s, u, l);
    SyncedCommits(s, x, l, u.node[l].commitIndex);
    HeldByAll(x, l, u.node[l].commitIndex);
  }

  lemma HeldByAll(x: State, l: NodeId, commit: int)
    requires l in x.node && AllSynced(x, l, {}, commit)
    requires |x.node[l].log| - 1 <= commit && |x.node[l].log| - 1 <= x.node[l].commitIndex
    ensures AllCommitted(x, x.node[l].log)
  {
  }

  // ---------- Delivering ----------

  ghost predicate OnlyOne(t: State, x: State, n: NodeId) {
    && x.servers == t.servers && n in t.node && n in x.node && x.node == t.node[n := x.node[n]]
    && x.node[n].log == t.node[n].log && x.node[n].commitIndex == t.node[n].commitIndex
  }

  /** The commit sender hands over what it has taken. */
  lemma {:induction false} Drain(s: State, t: State, n: NodeId) returns (x: State)
    requires Along(s, t) && n in t.node
    ensures Along(s, x) && OnlyOne(t, x, n) && x.node[n].outbox == []
    ensures x.node[n].lastApplied == t.node[n].lastApplied && x.node[n].pending == t.node[n].pending
    decreases |t.node[n].outbox|
  {
    if t.node[n].outbox == [] {
      x := t;
      assert t.node[n := t.node[n]] == t.node;
    } else {
      Go(s, t, SendReady(n));
      var u := Apply(t, SendReady(n));
      x := Drain(s, u, n);
    }
  }

  /** All that was committed has been delivered. */
  predicate TookAll(before: Node, after: Node) {
    forall k :: 0 <= k <= before.commitIndex ==>
      k < |after.delivered| && k < |before.log| && after.delivered[k] == CommitEntry(before.log[k].command, k)
  }

  /** The commit sender takes and hands over everything that is committed. */
  lemma DeliverNode(s: State, t: State, n: NodeId) returns (x: State)
    requires Along(s, t) && n in t.node
    ensures Along(s, x) && OnlyOne(t, x, n)
    ensures TookAll(t.node[n], x.node[n])
  {
    var u := Drain(s, t, n);
    NodeFacts(s, u, n);
    if u.node[n].commitIndex > u.node[n].lastApplied {
      Go(s, u, TakeReady(n));
      x := Drain(s, Apply(u, TakeReady(n)), n);
    } else {
      x := u;
    }
    NodeFacts(s, x, n);
  }

  /** Every server outside `rest` has delivered the log. */
  ghost predicate AllDelivered(t: State, log: Log, rest: set<NodeId>) {
    forall n :: n in t.servers && n !in rest ==> n in t.node && HasDelivered(t.node[n], log)
  }

  predicate HasDelivered(n: Node, log: Log) {
    |log| <= |n.delivered| && forall k :: 0 <= k < |log| ==> n.delivered[k] == CommitEntry(log[k].command, k)
  }

  lemma NextDelivered(t: State, u: State, log: Log, rest: set<NodeId>, n: NodeId)
    requires AllCommitted(t, log) && AllDelivered(t, log, rest) && n in rest && rest <= t.servers && OnlyOne(t, u, n)
    requires TookAll(t.node[n], u.node[n])
    ensures AllCommitted(u, log) && AllDelivered(u, log, rest - {n})
  {
    if log != [] {
      assert t.node[n].log[|log| - 1] == log[|log| - 1];
    }
    assert HasDelivered(u.node[n], log);
  }

  lemma {:induction false} DeliverRest(s: State, t: State, log: Log, rest: set<NodeId>) returns (x: State)
    requires Along(s, t) && rest <= t.servers && AllCommitted(t, log) && AllDelivered(t, log, rest)
    ensures Along(s, x) && x.servers == t.servers && AllDelivered(x, log, {})
    decreases |rest|
  {
    if n :| n in rest {
      var u := DeliverNode(s, t, n);
      NextDelivered(t, u, log, rest, n);
      x := DeliverRest(s, u, log, rest - {n});
    } else {
      assert rest == {};
      x := t;
    }
  }

  // ---------- The theorem ----------

  /** The run goes on from `s` to `t`, where every server has delivered `command`, at index `k`, after all it had. */
  ghost predicate DeliversNext(s: State, t: State, command: Command, k: nat) {
    && Along(s, t) && t.servers == s.servers
    && forall n :: n in s.servers ==> n in s.node && n in t.node && HasNext(s.node[n], t.node[n], command, k)
  }

  predicate HasNext(before: Node, after: Node, command: Command, k: nat) {
    && before.delivered <= after.delivered
    && |before.delivered| <= k < |after.delivered| && after.delivered[k] == CommitEntry(command, k)
  }

  /** Nobody has delivered more than a leader of the latest term has in its log. */
  lemma NothingBeyond(s: State, t: State, l: NodeId, n: NodeId)
    requires Along(s, t) && LeadsAll(t, l) && n in t.node
    ensures |t.node[n].delivered| <= |t.node[l].log|
  {
    NodeFacts(s, t, n);
    var m := t.node[n];
    if m.commitIndex >= 0 {
      LatestHasCommitted(s, t, l, n);
    }
  }

  lemma LatestHasCommitted(s: State, t: State, l: NodeId, n: NodeId)
    requires Along(s, t) && LeadsAll(t, l) && n in t.node && t.node[n].commitIndex >= 0
    ensures t.node[n].commitIndex < |t.node[l].log|
  {
    Invariants(s, t);
    var m := t.node[n];
    assert NodeCommitted(t, m);
    LaterLeadersHave(t, m.log, m.commitIndex, m.currentTerm, t.node[l].currentTerm);
  }

  /** The leader accepts the command, and everybody commits and delivers it. */
  lemma Spread(s: State, t: State, l: NodeId, command: Command) returns (x: State)
    requires Along(s, t) && LeadsAll(t, l) && |t.servers| > 1
    ensures Along(s, x) && x.servers == t.servers
    ensures AllDelivered(x, t.node[l].log + [LogEntry(command, t.node[l].currentTerm)], {})
  {
    Go(s, t, ClientSubmit(l, command));
    var u := Apply(t, ClientSubmit(l, command));
    var w := CommitEverywhere(s, u, l);
    x := DeliverRest(s, w, u.node[l].log, w.servers);
  }

  lemma Recover(s: State, command: Command) returns (t: State, k: nat)
    requires Reachable(CURRENT, s) && |s.servers| > 1
    ensures DeliversNext(s, t, command, k)
  {
    AlongStart(s);
    var u, l := Command(s, s);
    var log := u.node[l].log + [LogEntry(command, u.node[l].currentTerm)];
    t := Spread(s, u, l, command);
    k := |u.node[l].log|;
    forall n | n in s.servers ensures n in s.node && n in t.node && HasNext(s.node[n], t.node[n], command, k) {
      DeliveredStays(s, u, n);
      DeliveredStays(s, t, n);
      NothingBeyond(s, u, l, n);
      assert HasDelivered(t.node[n], log) && log[k].command == command;
    }
  }

  /** A server that knows of no other never leads, and so never delivers anything. */
  lemma AloneDeliversNothing(states: seq<State>, steps: seq<Step>, n: NodeId)
    requires IsRun(CURRENT, states, steps) && n in states[|steps|].node && states[|steps|].node[n].delivered != []
    ensures |states[|steps|].servers| > 1
  {
    DeliveryExact(states, steps, |steps|, n, 0);
    var i, a := EntryOrigin(CURRENT, states, steps, |steps|, n, 0);
    RunLeaderInv(CURRENT, states, steps, i);
    LeaderHasPeers(states[i], a);
    PeersOf(states[i], a);
    RunEvolves(CURRENT, states, steps, i, |steps|);
  }

  /**
   * From every state that a cluster can reach, whatever was lost, delayed, reordered or repeated on
   * the way there, the run can go on to where every server delivers a given command after all it had
   * delivered before, exactly if the cluster has more than one server.
   */
  lemma RecoveryIff(s: State, command: Command)
    requires Reachable(CURRENT, s) && s.servers != {}
    ensures (exists t, k :: DeliversNext(s, t, command, k)) <==> |s.servers| > 1
  {
    if |s.servers| > 1 {
      var t, k := Recover(s, command);
    } else if t, k :| DeliversNext(s, t, command, k) {
      var n :| n in s.servers;
      assert HasNext(s.node[n], t.node[n], command, k);
      var states, steps, i :| AlongBy(states, steps, i, s, t);
      AloneDeliversNothing(states, steps, n);
    }
  }
}
