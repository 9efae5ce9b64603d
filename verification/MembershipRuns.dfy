/** Building runs of the growing cluster, to show what can happen in it. */
module MembershipRuns {
  import opened RaftTypes
  import opened Collections
  import opened Membership
  import opened MembershipSafety
  import opened Growth

  /** The membership steps among `steps`, in order. */
  function MembershipOf(steps: seq<Step>): seq<Step> {
    if steps == [] then []
    else
      var last := steps[|steps| - 1];
      MembershipOf(steps[..|steps| - 1]) + if ChangesMembership(last) then [last] else []
  }

  lemma {:induction false} MembershipListed(steps: seq<Step>, k: nat)
    requires k < |steps| && ChangesMembership(steps[k])
    ensures steps[k] in MembershipOf(steps)
  {
    if k < |steps| - 1 {
      MembershipListed(steps[..|steps| - 1], k);
    }
  }

  ghost function FreshNodes(ids: set<NodeId>, cluster: set<NodeId>): (nodes: map<NodeId, Node>)
    ensures nodes.Keys == ids
    ensures forall i :: i in ids ==> nodes[i] == Node(0, NOBODY, Follower, cluster - {i})
  {
    if ids == {} then map[]
    else var i :| i in ids; FreshNodes(ids - {i}, cluster)[i := Node(0, NOBODY, Follower, cluster - {i})]
  }

  /** A fully connected cluster that has just started. */
  ghost function Started(checksRole: bool, cluster: set<NodeId>): (s: State)
    ensures Initial(s) && FullyConnected(s, cluster) && s.checksRole == checksRole
  {
    State(checksRole, FreshNodes(cluster, cluster), [], {}, {}, {}, {}, {})
  }

  ghost predicate ArrivesBy(g: Guards, first: State, states: seq<State>, steps: seq<Step>, s: State, added: seq<Step>) {
    IsRun(g, states, steps) && states[0] == first && states[|steps|] == s && MembershipOf(steps) == added
  }

  /** Some run that starts in `first` and has exactly these membership steps ends in `s`. */
  ghost predicate Arrives(g: Guards, first: State, s: State, added: seq<Step>) {
    exists states, steps :: ArrivesBy(g, first, states, steps, s, added)
  }

  function WithStep(added: seq<Step>, step: Step): seq<Step> {
    if ChangesMembership(step) then added + [step] else added
  }

  lemma Extend(g: Guards, first: State, states: seq<State>, steps: seq<Step>, s: State, added: seq<Step>, step: Step,
          t: State)
    requires ArrivesBy(g, first, states, steps, s, added) && Follows(g, s, step, t)
    ensures ArrivesBy(g, first, states + [t], steps + [step], t, WithStep(added, step))
  {
    var x, y := states + [t], steps + [step];
    forall i | 0 <= i < |y| ensures FollowsAt(g, x, y, i) {
      if i < |steps| {
        assert FollowsAt(g, states, steps, i);
      }
    }
    assert y[..|steps|] == steps;
  }

  lemma Follow(g: Guards, first: State, s: State, added: seq<Step>, step: Step, t: State)
    requires Arrives(g, first, s, added) && Follows(g, s, step, t)
    ensures Arrives(g, first, t, WithStep(added, step))
  {
    var states, steps :| ArrivesBy(g, first, states, steps, s, added);
    Extend(g, first, states, steps, s, added, step, t);
  }

  lemma Take(g: Guards, first: State, s: State, added: seq<Step>, step: Step)
    requires Arrives(g, first, s, added) && WellFormed(s) && Enabled(s, step) && Respects(s, step, g)
    ensures Arrives(g, first, Apply(s, step), WithStep(added, step)) && WellFormed(Apply(s, step))
  {
    ApplyKeepsWellFormed(s, step);
    Follow(g, first, s, added, step, Apply(s, step));
  }

  lemma Start(g: Guards, first: State)
    requires Initial(first)
    ensures Arrives(g, first, first, []) && WellFormed(first)
  {
    var steps: seq<Step> := [];
    assert ArrivesBy(g, first, [first], steps, first, []);
  }

  // ---------- Elections ----------

  /** What an election leaves as it was. */
  ghost predicate SameBesides(s: State, t: State) {
    t == s.(node := t.node, elections := t.elections, asks := t.asks, answers := t.answers, wins := t.wins)
    && t.node.Keys == s.node.Keys && s.answers <= t.answers
  }

  function NextElection(n: Node, id: NodeId): Election {
    Election(id, n.currentTerm + 1, n.peers, 1, n.peers, {})
  }

  lemma Campaign(g: Guards, first: State, s: State, added: seq<Step>, n: NodeId) returns (t: State)
    requires Arrives(g, first, s, added) && WellFormed(s) && n in s.node && s.node[n].role != Leader
    ensures Arrives(g, first, t, added) && WellFormed(t) && SameBesides(s, t) && t.wins == s.wins
    ensures t.node == s.node[n := StartElection(s.node[n], n)]
    ensures t.elections == s.elections + [NextElection(s.node[n], n)]
  {
    Take(g, first, s, added, Timeout(n));
    t := Apply(s, Timeout(n));
  }

  function Voted(n: Node, b: Election): Node {
    BecomeFollower(n, b.term).(votedFor := b.candidate)
  }

  /** Peer `p` is asked for its vote in election `e` and gives it. */
  lemma Vote(g: Guards, first: State, s: State, added: seq<Step>, e: nat, p: NodeId) returns (t: State, m: Answer)
    requires Arrives(g, first, s, added) && WellFormed(s) && e < |s.elections| && p in s.elections[e].waiting
    requires p in s.node
    requires s.node[p].currentTerm < s.elections[e].term
    ensures Arrives(g, first, t, added) && WellFormed(t) && SameBesides(s, t) && t.wins == s.wins
    ensures m == Answer(p, e, VoteReply(s.elections[e].term, true)) && m in t.answers
    ensures t.elections == s.elections && t.node == s.node[p := Voted(s.node[p], s.elections[e])]
  {
    Take(g, first, s, added, SendAsk(e, p));
    var u := Apply(s, SendAsk(e, p));
    Take(g, first, u, added, RecvAsk(Ask(p, e)));
    t, m := Apply(u, RecvAsk(Ask(p, e))), Answer(p, e, VoteReply(s.elections[e].term, true));
  }

  predicate Suffices(b: Election) {
    (b.votesReceived + 1) * 2 > |b.peers| + 1
  }

  function Counted(b: Election, p: NodeId): Election {
    b.(votesReceived := b.votesReceived + 1, waiting := b.waiting - {p}, voters := b.voters + {p})
  }

  function Outcome(n: Node, b: Election): Node {
    n.(role := if Suffices(b) then Leader else n.role)
  }

  /** A vote is counted by a candidate, of whatever term if vote replies need not be current. */
  lemma CountVote(g: Guards, first: State, s: State, added: seq<Step>, m: Answer) returns (t: State)
    requires Arrives(g, first, s, added) && WellFormed(s)
    requires m in s.answers && m.election < |s.elections| && m.from in s.elections[m.election].waiting
    requires var b := s.elections[m.election];
             && b.candidate in s.node && s.node[b.candidate].role == Candidate && m.reply == VoteReply(b.term, true)
             && (g.voteReplies ==> s.node[b.candidate].currentTerm == b.term)
    ensures Arrives(g, first, t, added) && WellFormed(t) && SameBesides(s, t)
    ensures var b := s.elections[m.election];
            && t.elections == s.elections[m.election := Counted(b, m.from)]
            && t.node == s.node[b.candidate := Outcome(s.node[b.candidate], b)]
            && t.wins == if Suffices(b) then s.wins + {m.election} else s.wins
  {
    Take(g, first, s, added, RecvAnswer(m));
    t := Apply(s, RecvAnswer(m));
  }

  /** Peer `p` is asked in election `e`, votes, and is counted at once. */
  lemma AskAndCount(g: Guards, first: State, s: State, added: seq<Step>, e: nat, p: NodeId) returns (t: State)
    requires Arrives(g, first, s, added) && WellFormed(s) && e < |s.elections| && p in s.elections[e].waiting
    requires p in s.node
    requires s.node[p].currentTerm < s.elections[e].term
    requires var b := s.elections[e];
             && b.candidate in s.node && b.candidate != p
             && s.node[b.candidate].role == Candidate && s.node[b.candidate].currentTerm == b.term
    ensures Arrives(g, first, t, added) && WellFormed(t) && SameBesides(s, t)
    ensures var b := s.elections[e];
            && t.elections == s.elections[e := Counted(b, p)]
            && t.node == s.node[p := Voted(s.node[p], b)][b.candidate := Outcome(s.node[b.candidate], b)]
            && t.wins == if Suffices(b) then s.wins + {e} else s.wins
  {
    var u, m := Vote(g, first, s, added, e, p);
    t := CountVote(g, first, u, added, m);
  }

  /** Among three servers one vote makes a leader. */
  lemma Elect(g: Guards, first: State, s: State, added: seq<Step>, n: NodeId, p: NodeId) returns (t: State)
    requires Arrives(g, first, s, added) && WellFormed(s) && n in s.node && p in s.node && s.node[n].role != Leader
    requires p in s.node[n].peers && |s.node[n].peers| == 2 && s.node[p].currentTerm <= s.node[n].currentTerm
    ensures Arrives(g, first, t, added) && WellFormed(t) && SameBesides(s, t) && t.wins == s.wins + {|s.elections|}
    ensures var m, b := StartElection(s.node[n], n), NextElection(s.node[n], n);
            && t.node == s.node[p := Voted(s.node[p], b)][n := m.(role := Leader)]
            && t.elections == s.elections + [Counted(b, p)]
  {
    var u := Campaign(g, first, s, added, n);
    var m, b := StartElection(s.node[n], n), NextElection(s.node[n], n);
    assert u.elections[|s.elections|] == b && n != p;
    t := AskAndCount(g, first, u, added, |s.elections|, p);
    LastReplaced(s.elections, b, Counted(b, p));
    LastUpdateCounts(s.node, n, m, p, Voted(s.node[p], b), m.(role := Leader));
  }
}
