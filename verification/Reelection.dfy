/**
 * In a cluster of more than one server whose membership does not change, any server can become the
 * leader that all others follow, from whatever state the cluster has reached.
 */
module Reelection {
  import opened RaftTypes
  import opened Membership
  import opened MembershipSafety
  import opened MembershipRuns
  import opened MembershipTerms
  import opened StaleReplies
  import opened Growth
  import Core = ElectionCore

  // ---------- Continuing a run ----------

  ghost predicate AlongBy(checksRole: bool, states: seq<State>, steps: seq<Step>, i: nat, s: State, t: State) {
    FixedRun(CURRENT, checksRole, states, steps) && i < |states| && states[i] == s && states[|steps|] == t
  }

  /** Some run of fixed membership passes through `s` and ends in `t`, where all servers know each other. */
  ghost predicate Along(checksRole: bool, s: State, t: State) {
    && WellFormed(t) && FullyConnected(t, t.node.Keys) && t.node.Keys == s.node.Keys
    && exists states, steps, i :: AlongBy(checksRole, states, steps, i, s, t)
  }

  lemma StepKeepsConnected(s: State, step: Step)
    requires WellFormed(s) && Enabled(s, step) && FullyConnected(s, s.node.Keys) && !ChangesMembership(step)
    ensures Apply(s, step).node.Keys == s.node.Keys && FullyConnected(Apply(s, step), s.node.Keys)
  {
  }

  lemma {:induction false} RunConnected(states: seq<State>, steps: seq<Step>, i: nat)
    requires IsRun(CURRENT, states, steps) && i < |states| && FullyConnected(states[0], states[0].node.Keys)
    requires forall k :: 0 <= k < |steps| ==> !ChangesMembership(steps[k])
    ensures WellFormed(states[i])
    ensures states[i].node.Keys == states[0].node.Keys && FullyConnected(states[i], states[i].node.Keys)
  {
    RunInv(states, steps, i);
    if i > 0 {
      RunConnected(states, steps, i - 1);
      assert FollowsAt(CURRENT, states, steps, i - 1);
      StepKeepsConnected(states[i - 1], steps[i - 1]);
    }
  }

  lemma AlongStart(checksRole: bool, states: seq<State>, steps: seq<Step>)
    requires FixedRun(CURRENT, checksRole, states, steps)
    ensures Along(checksRole, states[|steps|], states[|steps|])
  {
    RunConnected(states, steps, |steps|);
    assert AlongBy(checksRole, states, steps, |steps|, states[|steps|], states[|steps|]);
  }

  lemma Go(checksRole: bool, s: State, t: State, step: Step)
    requires Along(checksRole, s, t) && Enabled(t, step) && Respects(t, step, CURRENT) && !ChangesMembership(step)
    ensures Along(checksRole, s, Apply(t, step))
  {
    var states, steps, i :| AlongBy(checksRole, states, steps, i, s, t);
    var x := Apply(t, step);
    var longer, more := states + [x], steps + [step];
    forall k | 0 <= k < |more| ensures FollowsAt(CURRENT, longer, more, k) {
      if k < |steps| {
        assert FollowsAt(CURRENT, states, steps, k);
      }
    }
    RunConnected(longer, more, |more|);
    RunConnected(longer, more, i);
    assert AlongBy(checksRole, longer, more, i, s, x);
  }

  /** Peer `v` is asked in election `e`, whose term it has not reached, and votes. */
  lemma GetVote(checksRole: bool, s: State, t: State, e: nat, v: NodeId) returns (x: State)
    requires Along(checksRole, s, t) && e < |t.elections| && v in t.elections[e].waiting && v in t.node
    requires t.node[v].currentTerm < t.elections[e].term
    ensures Along(checksRole, s, x) && x.elections == t.elections
    ensures x.node == t.node[v := Voted(t.node[v], t.elections[e])]
    ensures Answer(v, e, VoteReply(t.elections[e].term, true)) in x.answers
  {
    Go(checksRole, s, t, SendAsk(e, v));
    var u := Apply(t, SendAsk(e, v));
    Go(checksRole, s, u, RecvAsk(Ask(v, e)));
    x := Apply(u, RecvAsk(Ask(v, e)));
  }

  // ---------- Giving up the lead ----------

  ghost predicate Latest(s: State, n: NodeId) {
    n in s.node && forall k :: k in s.node ==> s.node[k].currentTerm <= s.node[n].currentTerm
  }

  lemma SomeLatest(s: State) returns (n: NodeId)
    requires s.node.Keys != {}
    ensures Latest(s, n)
  {
    n :| n in s.node;
    var rest := s.node.Keys;
    while rest != {}
      invariant rest <= s.node.Keys && n in s.node
      invariant forall k :: k in s.node && k !in rest ==> s.node[k].currentTerm <= s.node[n].currentTerm
      decreases |rest|
    {
      var k :| k in rest;
      if s.node[k].currentTerm > s.node[n].currentTerm {
        n := k;
      }
      rest := rest - {k};
    }
  }

  /** A server in an earlier term than another is told so, by a request for its vote or by a heartbeat. */
  lemma Depose(checksRole: bool, s: State, t: State, n: NodeId, p: NodeId) returns (x: State)
    requires Along(checksRole, s, t) && n in t.node && p in t.node && t.node[n].currentTerm < t.node[p].currentTerm
    ensures Along(checksRole, s, x) && x.node[n].role != Leader
  {
    if t.node[p].role == Leader {
      Go(checksRole, s, t, SendBeats(p));
      var u := Apply(t, SendBeats(p));
      var m := Beat(n, p, t.node[p].currentTerm);
      Go(checksRole, s, u, RecvBeat(m));
      x := Apply(u, RecvBeat(m));
    } else {
      Go(checksRole, s, t, Timeout(p));
      x := GetVote(checksRole, s, Apply(t, Timeout(p)), |t.elections|, n);
    }
  }

  // ---------- Winning an election ----------

  /** Node `n` campaigns in election `e` and has not asked anybody. */
  ghost predicate JustStarted(t: State, e: nat, n: NodeId) {
    && n in t.node && e < |t.elections| && t.node[n].role == Candidate
    && t.elections[e] == Election(n, t.node[n].currentTerm, t.node[n].peers, 1, t.node[n].peers, {})
  }

  /** It campaigns until its term is above that of all others. */
  lemma {:induction false} Climb(checksRole: bool, s: State, t: State, n: NodeId, bound: nat) returns (x: State, e: nat)
    requires Along(checksRole, s, t) && n in t.node && t.node[n].role != Leader
    ensures Along(checksRole, s, x) && JustStarted(x, e, n) && x.node[n].currentTerm > bound
    ensures forall k :: k in t.node && k != n ==> x.node[k] == t.node[k]
    decreases bound - t.node[n].currentTerm
  {
    Go(checksRole, s, t, Timeout(n));
    x, e := Apply(t, Timeout(n)), |t.elections|;
    if x.node[n].currentTerm <= bound {
      x, e := Climb(checksRole, s, x, n, bound);
    }
  }

  /** It campaigns in election `e`, or has won it; those of `rest` have not been asked yet. */
  ghost predicate Campaigns(x: State, e: nat, n: NodeId, term: nat, rest: set<NodeId>) {
    && n in x.node && rest <= x.node.Keys && e < |x.elections|
    && x.elections[e].candidate == n && x.elections[e].term == term && rest <= x.elections[e].waiting
    && x.elections[e].peers == x.node.Keys - {n}
    && x.node[n].currentTerm == term && x.node[n].role != Follower
    && (x.node[n].role == Candidate ==> Undecided(x.elections[e].votesReceived, x.node.Keys - {n}, rest))
    && (forall k :: k in x.node ==> x.node[k].currentTerm <= term)
    && (forall k :: k in rest ==> k != n && x.node[k].currentTerm < term)
  }

  predicate Undecided(votes: nat, peers: set<NodeId>, rest: set<NodeId>) {
    rest <= peers && votes == 1 + |peers - rest| && (rest != peers ==> votes * 2 <= |peers| + 1)
  }

  lemma OneMoreVote(votes: nat, peers: set<NodeId>, rest: set<NodeId>, v: NodeId)
    requires Undecided(votes, peers, rest) && v in rest && (votes + 1) * 2 <= |peers| + 1
    ensures Undecided(votes + 1, peers, rest - {v})
  {
    assert peers - (rest - {v}) == (peers - rest) + {v};
  }

  lemma CountAnswer(checksRole: bool, s: State, u: State, m: Answer) returns (x: State)
    requires Along(checksRole, s, u) && m in u.answers && m.from in u.elections[m.election].waiting
    requires var b := u.elections[m.election];
             u.node[b.candidate].role == Candidate && u.node[b.candidate].currentTerm == b.term
             && m.reply == VoteReply(b.term, true)
    ensures Along(checksRole, s, x)
    ensures var b := u.elections[m.election];
            && x.elections == u.elections[m.election := Counted(b, m.from)]
            && x.node == u.node[b.candidate := Outcome(u.node[b.candidate], b)]
  {
    Go(checksRole, s, u, RecvAnswer(m));
    x := Apply(u, RecvAnswer(m));
  }

  /** One more peer is asked, and its vote counted if that still matters. */
  lemma NextVote(checksRole: bool, s: State, t: State, e: nat, n: NodeId, term: nat, rest: set<NodeId>, v: NodeId)
    returns (x: State)
    requires Along(checksRole, s, t) && Campaigns(t, e, n, term, rest) && v in rest
    ensures Along(checksRole, s, x) && Campaigns(x, e, n, term, rest - {v})
  {
    if t.node[n].role == Candidate {
      var u := GetVote(checksRole, s, t, e, v);
      x := CountAnswer(checksRole, s, u, Answer(v, e, VoteReply(term, true)));
      VoteCounted(t, u, x, e, n, term, rest, v);
    } else {
      x := t;
    }
  }

  lemma VoteCounted(t: State, u: State, x: State, e: nat, n: NodeId, term: nat, rest: set<NodeId>, v: NodeId)
    requires Campaigns(t, e, n, term, rest) && v in rest && t.node[n].role == Candidate
    requires u.elections == t.elections && u.node == t.node[v := Voted(t.node[v], t.elections[e])]
    requires x.elections == u.elections[e := Counted(t.elections[e], v)]
    requires x.node == u.node[n := Outcome(u.node[n], t.elections[e])]
    ensures Campaigns(x, e, n, term, rest - {v})
  {
    if !Suffices(t.elections[e]) {
      OneMoreVote(t.elections[e].votesReceived, t.node.Keys - {n}, rest, v);
    }
  }

  lemma {:induction false} AskRest(checksRole: bool, s: State, t: State, e: nat, n: NodeId, term: nat,
                                   rest: set<NodeId>)
    returns (x: State)
    requires Along(checksRole, s, t) && Campaigns(t, e, n, term, rest)
    ensures Along(checksRole, s, x) && Campaigns(x, e, n, term, {})
    decreases |rest|
  {
    if v :| v in rest {
      var u := NextVote(checksRole, s, t, e, n, term, rest, v);
      x := AskRest(checksRole, s, u, e, n, term, rest - {v});
    } else {
      assert rest == {};
      x := t;
    }
  }

  lemma AllAsked(x: State, e: nat, n: NodeId, term: nat)
    requires Campaigns(x, e, n, term, {}) && |x.node.Keys| > 1
    ensures x.node[n].role == Leader && Latest(x, n)
  {
    assert x.node.Keys - {n} - {} == x.node.Keys - {n};
    assert x.node.Keys == x.node.Keys - {n} + {n};
  }

  /** The server is elected in a term later than all others'. */
  lemma Win(checksRole: bool, s: State, t: State, n: NodeId) returns (x: State)
    requires Along(checksRole, s, t) && n in t.node && t.node[n].role != Leader && |t.node.Keys| > 1
    ensures Along(checksRole, s, x) && x.node.Keys == t.node.Keys && x.node[n].role == Leader && Latest(x, n)
  {
    var p := SomeLatest(t);
    var u, e := Climb(checksRole, s, t, n, t.node[p].currentTerm);
    var peers := u.node.Keys - {n};
    assert peers - peers == {};
    x := AskRest(checksRole, s, u, e, n, u.node[n].currentTerm, peers);
    AllAsked(x, e, n, u.node[n].currentTerm);
  }

  // ---------- Being followed ----------

  /** The leader's heartbeat is on its way to those of `rest`, and has made followers of the others. */
  ghost predicate Beating(x: State, n: NodeId, rest: set<NodeId>) {
    && n in x.node && x.node[n].role == Leader && Latest(x, n) && rest <= x.node.Keys - {n}
    && (forall p :: p in rest ==> Beat(p, n, x.node[n].currentTerm) in x.beats)
    && (forall p :: p in x.node && p != n && p !in rest ==> FollowerOf(x.node[p], x.node[n]))
  }

  predicate FollowerOf(p: Node, l: Node) {
    p.role == Follower && p.currentTerm == l.currentTerm
  }

  lemma {:induction false} BeatRest(checksRole: bool, s: State, t: State, n: NodeId, rest: set<NodeId>)
    returns (x: State)
    requires Along(checksRole, s, t) && Beating(t, n, rest)
    ensures Along(checksRole, s, x) && Beating(x, n, {})
    decreases |rest|
  {
    if p :| p in rest {
      var m := Beat(p, n, t.node[n].currentTerm);
      Go(checksRole, s, t, RecvBeat(m));
      x := BeatRest(checksRole, s, Apply(t, RecvBeat(m)), n, rest - {p});
    } else {
      assert rest == {};
      x := t;
    }
  }

  lemma BeFollowed(checksRole: bool, s: State, t: State, n: NodeId) returns (x: State)
    requires Along(checksRole, s, t) && n in t.node && t.node[n].role == Leader && Latest(t, n)
    ensures Along(checksRole, s, x) && Beating(x, n, {})
  {
    Go(checksRole, s, t, SendBeats(n));
    x := BeatRest(checksRole, s, Apply(t, SendBeats(n)), n, t.node.Keys - {n});
  }

  // ---------- The theorem ----------

  /** The run goes on from `s` to `t`, where `n` leads and all others follow in its term. */
  ghost predicate TakesOver(checksRole: bool, s: State, t: State, n: NodeId) {
    && Along(checksRole, s, t) && n in t.node && t.node[n].role == Leader
    && forall p :: p in t.node && p != n ==> FollowerOf(t.node[p], t.node[n])
  }

  lemma TakeOver(checksRole: bool, s: State, n: NodeId) returns (t: State)
    requires Along(checksRole, s, s) && n in s.node && |s.node.Keys| > 1
    ensures TakesOver(checksRole, s, t, n)
  {
    var p := SomeLatest(s);
    var u := s;
    if s.node[n].role == Leader && s.node[n].currentTerm < s.node[p].currentTerm {
      u := Depose(checksRole, s, s, n, p);
    }
    if u.node[n].role != Leader {
      u := Win(checksRole, s, u, n);
    }
    t := BeFollowed(checksRole, s, u, n);
  }

  /** A leader was elected by some other server. */
  lemma ElectedByOther(s: State, n: NodeId) returns (w: nat, v: NodeId)
    requires Inv(s) && n in s.node && s.node[n].role == Leader
    ensures w < |s.elections| && s.elections[w].candidate == n && v in Config(s.elections[w]) && v != n
  {
    LeaderWon(s, n);
    var c := CoreOf(s);
    w :| w in s.wins && w < |s.elections| && s.elections[w].term == s.node[n].currentTerm
         && s.elections[w].candidate == n;
    assert Core.BallotSound(c, c.ballots[w]) && c.ballots[w].voters != {};
    v :| v in c.ballots[w].voters;
  }

  lemma TwoMembers(cluster: set<NodeId>, v: NodeId, n: NodeId)
    requires v in cluster && n in cluster && v != n
    ensures |cluster| > 1
  {
    assert cluster == cluster - {v} + {v} && n in cluster - {v};
  }

  lemma LeaderNotAlone(states: seq<State>, steps: seq<Step>, n: NodeId)
    requires IsRun(CURRENT, states, steps) && FullyConnected(states[0], states[0].node.Keys)
    requires forall k :: 0 <= k < |steps| ==> !ChangesMembership(steps[k])
    requires n in states[|steps|].node && states[|steps|].node[n].role == Leader
    ensures |states[|steps|].node.Keys| > 1
  {
    var s, cluster := states[|steps|], states[0].node.Keys;
    RunInv(states, steps, |steps|);
    var w, v := ElectedByOther(s, n);
    ConnectedSees(states[0], cluster, {cluster});
    RunKeepsView(states, steps, |steps|, {cluster});
    assert Config(s.elections[w]) in {cluster};
    RunConnected(states, steps, |steps|);
    TwoMembers(cluster, v, n);
  }

  /**
   * From whatever state a fixed cluster has reached, the run can go on to where a given server leads
   * and all others follow it, exactly if the cluster has more than one server. In either variant.
   */
  lemma TakeoverIff(checksRole: bool, states: seq<State>, steps: seq<Step>, n: NodeId)
    requires FixedRun(CURRENT, checksRole, states, steps) && n in states[|steps|].node
    ensures (exists t :: TakesOver(checksRole, states[|steps|], t, n)) <==> |states[|steps|].node.Keys| > 1
  {
    var s := states[|steps|];
    if |s.node.Keys| > 1 {
      AlongStart(checksRole, states, steps);
      var t := TakeOver(checksRole, s, n);
    } else if t :| TakesOver(checksRole, s, t, n) {
      var longer, more, i :| AlongBy(checksRole, longer, more, i, s, t);
      LeaderNotAlone(longer, more, n);
    }
  }
}
