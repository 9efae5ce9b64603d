/** Building runs of the cluster, to show what can happen in it. */
module ClusterRuns {
  import opened RaftTypes
  import opened Collections
  import opened NodeRules
  import opened Cluster

  ghost predicate Arrives(g: Guards, states: seq<State>, steps: seq<Step>, s: State) {
    IsRun(g, states, steps) && states[|steps|] == s
  }

  ghost predicate Reachable(g: Guards, s: State) {
    exists states, steps :: Arrives(g, states, steps, s)
  }

  lemma Extend(g: Guards, states: seq<State>, steps: seq<Step>, s: State, step: Step, t: State)
    requires Arrives(g, states, steps, s) && Follows(g, s, step, t)
    ensures Arrives(g, states + [t], steps + [step], t)
  {
    var x, y := states + [t], steps + [step];
    forall i | 0 <= i < |y| ensures FollowsAt(g, x, y, i) {
      if i < |steps| {
        assert FollowsAt(g, states, steps, i);
      }
    }
  }

  lemma Follow(g: Guards, s: State, step: Step, t: State)
    requires Reachable(g, s) && Follows(g, s, step, t)
    ensures Reachable(g, t)
  {
    var states, steps :| Arrives(g, states, steps, s);
    Extend(g, states, steps, s, step, t);
  }

  lemma Take(g: Guards, s: State, step: Step)
    requires Reachable(g, s) && WellFormed(s) && Enabled(s, step) && Respects(s, step, g)
    ensures Reachable(g, Apply(s, step)) && WellFormed(Apply(s, step))
  {
    ApplyKeepsWellFormed(s, step);
    Follow(g, s, step, Apply(s, step));
  }

  ghost function AllFresh(servers: set<NodeId>): (m: map<NodeId, Node>)
    ensures m.Keys == servers && forall n :: n in servers ==> m[n] == FRESH
  {
    if servers == {} then map[] else var n :| n in servers; AllFresh(servers - {n})[n := FRESH]
  }

  /** Servers that have just started. */
  lemma Start(g: Guards, servers: set<NodeId>) returns (s: State)
    ensures Reachable(g, s) && WellFormed(s) && Initial(s) && s.servers == servers
  {
    s := State(servers, AllFresh(servers), [], {}, {}, {}, {}, {}, map[]);
    var steps: seq<Step> := [];
    assert Arrives(g, [s], steps, s);
  }

  // ---------- Elections ----------

  lemma Campaign(g: Guards, s: State, c: NodeId) returns (t: State)
    requires Reachable(g, s) && WellFormed(s) && c in s.servers && s.node[c].role != Leader
    ensures Reachable(g, t) && WellFormed(t)
    ensures t == s.(node := s.node[c := StartElection(s.node[c], c)],
                    elections := s.elections + [Election(c, s.node[c].currentTerm + 1, 1, Peers(s, c), {})])
  {
    Take(g, s, Timeout(c));
    t := Apply(s, Timeout(c));
  }

  function Claim(b: Election, log: Log): VoteArgs {
    VoteArgs(b.term, b.candidate, LastIndex(log), LastTerm(log))
  }

  function Voted(n: Node, b: Election): Node {
    BecomeFollower(n, b.term).(votedFor := b.candidate)
  }

  /** Peer `v` is asked for its vote in election `e` and gives it. */
  lemma Vote(g: Guards, s: State, e: nat, v: NodeId) returns (t: State, m: VoteAnswer)
    requires Reachable(g, s) && WellFormed(s) && e < |s.elections| && v in s.elections[e].waiting
    requires s.node[v].currentTerm < s.elections[e].term
    requires UpToDate(Claim(s.elections[e], s.node[s.elections[e].candidate].log), s.node[v].log)
    ensures Reachable(g, t) && WellFormed(t)
    ensures m == VoteAnswer(v, e, Claim(s.elections[e], s.node[s.elections[e].candidate].log),
                            VoteReply(s.elections[e].term, true))
    ensures t == s.(node := s.node[v := Voted(s.node[v], s.elections[e])],
                    voteRequests := t.voteRequests, voteAnswers := s.voteAnswers + {m})
  {
    var a := Claim(s.elections[e], s.node[s.elections[e].candidate].log);
    Take(g, s, SendVoteRequest(e, v));
    var u, r := Apply(s, SendVoteRequest(e, v)), VoteRequest(v, e, a);
    assert r in u.voteRequests;
    Take(g, u, RecvVoteRequest(r));
    t, m := Apply(u, RecvVoteRequest(r)), VoteAnswer(v, e, a, VoteReply(a.term, true));
  }

  function Counted(b: Election, v: NodeId): Election {
    b.(votesReceived := b.votesReceived + 1, waiting := b.waiting - {v}, voters := b.voters + {v})
  }

  ghost function Outcome(n: Node, b: Election, peers: set<NodeId>): Node {
    if Outvotes(b.votesReceived + 1, peers) then StartLeader(n, peers) else n
  }

  /** A vote is counted by a candidate, of whatever term if vote replies need not be current. */
  lemma CountVote(g: Guards, s: State, m: VoteAnswer) returns (t: State)
    requires Reachable(g, s) && WellFormed(s) && m in s.voteAnswers && m.from in s.elections[m.election].waiting
    requires var b := s.elections[m.election];
             && m.reply == VoteReply(b.term, true) && s.node[b.candidate].role == Candidate
             && (g.voteReplies ==> s.node[b.candidate].currentTerm == b.term)
    ensures Reachable(g, t) && WellFormed(t)
    ensures var b := s.elections[m.election];
            t == s.(node := s.node[b.candidate := Outcome(s.node[b.candidate], b, Peers(s, b.candidate))],
                    elections := s.elections[m.election := Counted(b, m.from)], reigns := t.reigns)
  {
    Take(g, s, RecvVoteAnswer(m));
    t := Apply(s, RecvVoteAnswer(m));
  }

  /** Everything but elections and nodes is as it was, except that votes were asked for and given. */
  ghost predicate OnlyElections(s: State, t: State) {
    t == s.(node := t.node, elections := t.elections, voteRequests := t.voteRequests, voteAnswers := t.voteAnswers,
            reigns := t.reigns) && s.voteAnswers <= t.voteAnswers
  }

  /** Peer `v` is asked in election `e`, votes, and is counted at once. */
  lemma AskAndCount(g: Guards, s: State, e: nat, v: NodeId) returns (t: State)
    requires Reachable(g, s) && WellFormed(s) && e < |s.elections| && v in s.elections[e].waiting
    requires s.node[v].currentTerm < s.elections[e].term
    requires UpToDate(Claim(s.elections[e], s.node[s.elections[e].candidate].log), s.node[v].log)
    requires var b := s.elections[e]; s.node[b.candidate].role == Candidate && s.node[b.candidate].currentTerm == b.term
    ensures Reachable(g, t) && WellFormed(t) && OnlyElections(s, t)
    ensures t.elections == s.elections[e := Counted(s.elections[e], v)]
    ensures var b := s.elections[e];
            t.node == s.node[v := Voted(s.node[v], b)]
                            [b.candidate := Outcome(s.node[b.candidate], b, Peers(s, b.candidate))]
  {
    var u, m := Vote(g, s, e, v);
    t := CountVote(g, u, m);
  }

  lemma PeersOf(s: State, c: NodeId)
    requires c in s.servers
    ensures |Peers(s, c)| == |s.servers| - 1
  {
    assert s.servers == Peers(s, c) + {c};
  }

  /** The leader that `n` becomes when it wins its next election. */
  ghost function Elected(n: Node, c: NodeId, peers: set<NodeId>): Node {
    StartLeader(StartElection(n, c), peers)
  }

  predicate AtLeastAsNew(log: Log, other: Log) {
    LastTerm(log) > LastTerm(other) || (LastTerm(log) == LastTerm(other) && |log| >= |other|)
  }

  function NextElection(s: State, c: NodeId): Election
    requires c in s.node
  {
    Election(c, s.node[c].currentTerm + 1, 1, Peers(s, c), {})
  }

  /** Node `c` campaigns and is given one vote. */
  lemma FirstVote(g: Guards, s: State, c: NodeId, v: NodeId) returns (t: State)
    requires Reachable(g, s) && WellFormed(s) && c in s.servers && v in s.servers && c != v
    requires s.node[c].role != Leader && s.node[v].currentTerm <= s.node[c].currentTerm
    requires AtLeastAsNew(s.node[c].log, s.node[v].log)
    ensures Reachable(g, t) && WellFormed(t) && OnlyElections(s, t)
    ensures t.elections == s.elections + [Counted(NextElection(s, c), v)]
    ensures t.node == s.node[v := Voted(s.node[v], NextElection(s, c))]
                            [c := Outcome(StartElection(s.node[c], c), NextElection(s, c), Peers(s, c))]
  {
    var b := NextElection(s, c);
    var u := Campaign(g, s, c);
    assert u.elections[|s.elections|] == b;
    t := AskAndCount(g, u, |s.elections|, v);
    LastReplaced(s.elections, b, Counted(b, v));
    LastUpdateCounts(s.node, c, StartElection(s.node[c], c), v, Voted(s.node[v], b),
                     Outcome(StartElection(s.node[c], c), b, Peers(s, c)));
  }

  /** Among three servers one vote makes a leader. */
  lemma Elect(g: Guards, s: State, c: NodeId, v: NodeId) returns (t: State)
    requires Reachable(g, s) && WellFormed(s) && |s.servers| == 3 && c in s.servers && v in s.servers && c != v
    requires s.node[c].role != Leader && s.node[v].currentTerm <= s.node[c].currentTerm
    requires AtLeastAsNew(s.node[c].log, s.node[v].log)
    ensures Reachable(g, t) && WellFormed(t) && OnlyElections(s, t)
    ensures t.elections == s.elections + [Counted(NextElection(s, c), v)]
    ensures t.node == s.node[v := Voted(s.node[v], NextElection(s, c))][c := Elected(s.node[c], c, Peers(s, c))]
  {
    t := FirstVote(g, s, c, v);
    PeersOf(s, c);
  }

  /** Among five servers two votes do. */
  lemma ElectByTwo(g: Guards, s: State, c: NodeId, v: NodeId, w: NodeId) returns (t: State)
    requires Reachable(g, s) && WellFormed(s) && |s.servers| == 5
    requires c in s.servers && v in s.servers && w in s.servers && c != v && c != w && v != w
    requires s.node[c].role != Leader
    requires s.node[v].currentTerm <= s.node[c].currentTerm && s.node[w].currentTerm <= s.node[c].currentTerm
    requires AtLeastAsNew(s.node[c].log, s.node[v].log) && AtLeastAsNew(s.node[c].log, s.node[w].log)
    ensures Reachable(g, t) && WellFormed(t) && OnlyElections(s, t)
    ensures var b := NextElection(s, c);
            t.node == s.node[v := Voted(s.node[v], b)][w := Voted(s.node[w], b)]
                            [c := Elected(s.node[c], c, Peers(s, c))]
  {
    PeersOf(s, c);
    var b := NextElection(s, c);
    var u := FirstVote(g, s, c, v);
    assert u.elections[|s.elections|] == Counted(b, v) && u.node[c] == StartElection(s.node[c], c);
    t := AskAndCount(g, u, |s.elections|, w);
    LastUpdateCounts(s.node[v := Voted(s.node[v], b)], c, StartElection(s.node[c], c), w, Voted(s.node[w], b),
                     Elected(s.node[c], c, Peers(s, c)));
  }

  // ---------- Nodes that have committed nothing ----------

  /** A node that has committed nothing, with this role, term and log. */
  predicate Idle(n: Node, role: Role, term: nat, log: Log) {
    && n.role == role && n.currentTerm == term && n.log == log
    && n.commitIndex == -1 && n.lastApplied == -1 && n.pending == 0 && n.outbox == [] && n.delivered == []
  }

  /** A leader that has committed nothing, and has not heard from its peers since its log had `next` entries. */
  predicate Leads(n: Node, term: nat, log: Log, next: nat, peers: set<NodeId>) {
    && Idle(n, Leader, term, log)
    && forall p :: p in peers ==> Lookup(n.nextIndex, p) == next && Lookup(n.matchIndex, p) == -1
  }

  lemma ElectedLeads(n: Node, c: NodeId, peers: set<NodeId>)
    requires Idle(n, n.role, n.currentTerm, n.log)
    ensures Leads(Elected(n, c, peers), n.currentTerm + 1, n.log, |n.log|, peers)
  {
  }

  predicate IsIdle(n: Node) {
    Idle(n, n.role, n.currentTerm, n.log)
  }

  /** Among three servers, with the leader and the voter described by what matters afterwards. */
  lemma Lead(g: Guards, s: State, c: NodeId, v: NodeId) returns (t: State)
    requires Reachable(g, s) && WellFormed(s) && |s.servers| == 3 && c in s.servers && v in s.servers && c != v
    requires IsIdle(s.node[c]) && IsIdle(s.node[v]) && s.node[c].role != Leader
    requires s.node[v].currentTerm <= s.node[c].currentTerm && AtLeastAsNew(s.node[c].log, s.node[v].log)
    ensures Reachable(g, t) && WellFormed(t) && OnlyElections(s, t)
    ensures t.elections == s.elections + [Counted(NextElection(s, c), v)]
    ensures Leads(t.node[c], s.node[c].currentTerm + 1, s.node[c].log, |s.node[c].log|, Peers(s, c))
    ensures t.node[v] == Voted(s.node[v], NextElection(s, c))
    ensures forall n :: n in s.servers && n != c && n != v ==> t.node[n] == s.node[n]
  {
    t := Elect(g, s, c, v);
    ElectedLeads(s.node[c], c, Peers(s, c));
  }

  // ---------- Replication ----------

  lemma Accept(g: Guards, s: State, l: NodeId, command: Command) returns (t: State)
    requires Reachable(g, s) && WellFormed(s) && l in s.servers && s.node[l].role == Leader
    ensures Reachable(g, t) && WellFormed(t)
    ensures t == s.(node := s.node[l := Submit(s.node[l], command).0], reigns := t.reigns)
  {
    Take(g, s, ClientSubmit(l, command));
    t := Apply(s, ClientSubmit(l, command));
  }

  /** Leader `l` begins a round, and the request that it builds for `p` is handled by `p`. */
  lemma Replicate(g: Guards, s: State, l: NodeId, p: NodeId) returns (t: State, m: AppendAnswer)
    requires Reachable(g, s) && WellFormed(s) && l in s.servers && p in s.servers && l != p
    requires s.node[l].role == Leader && NextInRange(s.node[l], p)
    ensures Reachable(g, t) && WellFormed(t)
    ensures var a := Snapshot(s.node[l], l, p, s.node[l].currentTerm);
            && m == AppendAnswer(p, a, OnAppendEntries(s.node[p], a).1)
            && t == s.(node := s.node[p := OnAppendEntries(s.node[p], a).0], rounds := s.rounds + {Round(l, a.term)},
                       appendRequests := t.appendRequests, appendAnswers := s.appendAnswers + {m})
  {
    var term := s.node[l].currentTerm;
    Take(g, s, StartRound(l));
    var u := Apply(s, StartRound(l));
    t, m := SendAndReceive(g, u, Round(l, term), p);
  }

  lemma SendAndReceive(g: Guards, s: State, r: Round, p: NodeId) returns (t: State, m: AppendAnswer)
    requires Reachable(g, s) && WellFormed(s) && r in s.rounds && p in Peers(s, r.leader)
    requires NextInRange(s.node[r.leader], p)
    requires g.snapshots ==> s.node[r.leader].currentTerm == r.term
    ensures Reachable(g, t) && WellFormed(t)
    ensures var a := Snapshot(s.node[r.leader], r.leader, p, r.term);
            && m == AppendAnswer(p, a, OnAppendEntries(s.node[p], a).1)
            && t == s.(node := s.node[p := OnAppendEntries(s.node[p], a).0],
                       appendRequests := t.appendRequests, appendAnswers := s.appendAnswers + {m})
  {
    Take(g, s, SendAppend(r, p));
    var u := Apply(s, SendAppend(r, p));
    var q := AppendRequest(p, Snapshot(s.node[r.leader], r.leader, p, r.term));
    assert q in u.appendRequests;
    Take(g, u, RecvAppend(q));
    t, m := Apply(u, RecvAppend(q)), AppendAnswer(p, q.args, OnAppendEntries(s.node[p], q.args).1);
  }

  /** The answer `m` is handled by the leader that asked. */
  lemma Note(g: Guards, s: State, m: AppendAnswer) returns (t: State)
    requires Reachable(g, s) && WellFormed(s) && m in s.appendAnswers && s.node[m.args.leaderId].commitIndex >= -1
    requires g.appendReplies && AppendReplyBears(s.node[m.args.leaderId], m.args, m.reply) ==>
               s.node[m.args.leaderId].currentTerm == m.args.term
    ensures Reachable(g, t) && WellFormed(t)
    ensures var l := m.args.leaderId;
            t == s.(node := s.node[l := OnAppendReply(s.node[l], Peers(s, l), m.from, m.args, m.reply)])
  {
    Take(g, s, RecvAppendAnswer(m));
    t := Apply(s, RecvAppendAnswer(m));
  }

  // ---------- Delivery ----------

  /** The commit sender of `n` takes what is ready. */
  lemma Prepare(g: Guards, s: State, n: NodeId) returns (t: State)
    requires Reachable(g, s) && WellFormed(s) && n in s.servers
    requires s.node[n].pending > 0 && s.node[n].outbox == [] && ApplyInRange(s.node[n])
    ensures Reachable(g, t) && WellFormed(t) && t == s.(node := s.node[n := TakeCommitted(s.node[n])])
  {
    Take(g, s, TakeReady(n));
    t := Apply(s, TakeReady(n));
  }

  /** It hands one entry to the client. */
  lemma HandOver(g: Guards, s: State, n: NodeId) returns (t: State)
    requires Reachable(g, s) && WellFormed(s) && n in s.servers && s.node[n].outbox != []
    ensures Reachable(g, t) && WellFormed(t) && t == s.(node := s.node[n := Deliver(s.node[n])])
  {
    Take(g, s, SendReady(n));
    t := Apply(s, SendReady(n));
  }
}
