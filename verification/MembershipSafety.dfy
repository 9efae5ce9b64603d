/** At most one leader in a term, while the cluster grows. */
module MembershipSafety {
  import opened RaftTypes
  import opened Quorums
  import opened Membership
  import Core = ElectionCore

  ghost predicate Follows(g: Guards, s: State, step: Step, t: State) {
    WellFormed(s) && Enabled(s, step) && Respects(s, step, g) && t == Apply(s, step)
  }

  ghost predicate FollowsAt(g: Guards, states: seq<State>, steps: seq<Step>, i: int) {
    0 <= i < |steps| && i + 1 < |states| && Follows(g, states[i], steps[i], states[i + 1])
  }

  ghost predicate IsRun(g: Guards, states: seq<State>, steps: seq<Step>) {
    |states| == |steps| + 1 && Initial(states[0]) && forall i :: 0 <= i < |steps| ==> FollowsAt(g, states, steps, i)
  }

  /** Whoever leads a term, at whatever moment of the run, is the same node. */
  ghost predicate OneLeaderEver(states: seq<State>) {
    forall i, j, a, b, term :: LeadsAt(states, i, a, term) && LeadsAt(states, j, b, term) ==> a == b
  }

  predicate LeadsAt(states: seq<State>, i: int, a: NodeId, term: nat) {
    0 <= i < |states| && a in states[i].node
    && states[i].node[a].role == Leader && states[i].node[a].currentTerm == term
  }

  /** The configuration against which an election counts its votes. */
  function Config(b: Election): set<NodeId> {
    b.peers + {b.candidate}
  }

  /** Any two elections of the term that ask anybody at all use configurations whose majorities meet. */
  ghost predicate ElectionsMeet(s: State, term: nat) {
    forall e, f :: (0 <= e < |s.elections| && 0 <= f < |s.elections|
                    && Asks(s.elections[e], term) && Asks(s.elections[f], term))
                   ==> AlwaysMeet(Config(s.elections[e]), Config(s.elections[f]))
  }

  predicate Asks(b: Election, term: nat) {
    b.term == term && b.peers != {}
  }

  lemma InitialInv(s: State)
    requires Initial(s)
    ensures Inv(s) && forall t: nat :: Core.TermInv(CoreOf(s), t)
  {
    assert CoreOf(s).votes == {};
  }

  lemma {:induction false} RunInv(states: seq<State>, steps: seq<Step>, i: nat)
    requires IsRun(CURRENT, states, steps) && i < |states|
    ensures Inv(states[i])
  {
    if i == 0 {
      InitialInv(states[0]);
    } else {
      RunInv(states, steps, i - 1);
      assert FollowsAt(CURRENT, states, steps, i - 1);
      StepKeepsInv(states[i - 1], steps[i - 1]);
    }
  }

  /** Elections are never forgotten, and wins stay won. */
  ghost predicate Keeps(s: State, t: State) {
    && s.wins <= t.wins && |s.elections| <= |t.elections|
    && forall e :: 0 <= e < |s.elections| ==> SameElection(s.elections[e], t.elections[e])
  }

  predicate SameElection(b: Election, d: Election) {
    b.candidate == d.candidate && b.term == d.term && b.peers == d.peers
  }

  lemma StepKeeps(s: State, step: Step)
    requires WellFormed(s) && Enabled(s, step)
    ensures Keeps(s, Apply(s, step))
  {
  }

  lemma KeepsOn(s: State, t: State, x: State)
    requires Keeps(s, t) && Keeps(t, x)
    ensures Keeps(s, x)
  {
    forall e | 0 <= e < |s.elections| ensures SameElection(s.elections[e], x.elections[e]) {
      assert SameElection(s.elections[e], t.elections[e]) && SameElection(t.elections[e], x.elections[e]);
    }
  }

  lemma {:induction false} RunKeeps(states: seq<State>, steps: seq<Step>, i: nat, j: nat)
    requires IsRun(CURRENT, states, steps) && i <= j < |states|
    ensures Keeps(states[i], states[j])
    decreases j
  {
    if i < j {
      RunKeeps(states, steps, i, j - 1);
      assert FollowsAt(CURRENT, states, steps, j - 1);
      StepKeeps(states[j - 1], steps[j - 1]);
      KeepsOn(states[i], states[j - 1], states[j]);
    }
  }

  /** Configurations that meet at some moment did so before. */
  lemma MeetsBefore(s: State, t: State, term: nat)
    requires Keeps(s, t) && ElectionsMeet(t, term)
    ensures Core.TermMeets(CoreOf(s), term)
  {
    var c := CoreOf(s);
    forall e | 0 <= e < |c.ballots| && Core.Contested(c.ballots[e], term)
      ensures Asks(t.elections[e], term) && c.ballots[e].config == Config(t.elections[e])
    {
      assert SameElection(s.elections[e], t.elections[e]);
    }
  }

  lemma {:induction false} RunTermInv(states: seq<State>, steps: seq<Step>, term: nat, i: nat, last: nat)
    requires IsRun(CURRENT, states, steps) && i <= last < |states| && ElectionsMeet(states[last], term)
    ensures Core.TermInv(CoreOf(states[i]), term)
  {
    if i == 0 {
      InitialInv(states[0]);
    } else {
      RunTermInv(states, steps, term, i - 1, last);
      RunInv(states, steps, i - 1);
      assert FollowsAt(CURRENT, states, steps, i - 1);
      RunKeeps(states, steps, i - 1, last);
      StepKeepsTermInv(states[i - 1], steps[i - 1], states[last], term);
    }
  }

  lemma StepKeepsTermInv(s: State, step: Step, last: State, term: nat)
    requires Inv(s) && Enabled(s, step) && Current(s, step) && Core.TermInv(CoreOf(s), term)
    requires Keeps(s, last) && ElectionsMeet(last, term)
    ensures Core.TermInv(CoreOf(Apply(s, step)), term)
  {
    MeetsBefore(s, last, term);
    StepRefinesCore(s, step);
    Core.StepKeepsTermInv(CoreOf(s), CoreStep(s, step), term);
  }

  lemma OneWinner(s: State, t: State, a: NodeId, b: NodeId, term: nat)
    requires Keeps(s, t) && WonTerm(s, a, term) && WonTerm(t, b, term) && Core.OneWin(CoreOf(t), term)
    ensures a == b
  {
    var w :| w in s.wins && w < |s.elections| && s.elections[w].term == term && s.elections[w].candidate == a;
    var x :| x in t.wins && x < |t.elections| && t.elections[x].term == term && t.elections[x].candidate == b;
    assert SameElection(s.elections[w], t.elections[w]);
    assert Core.WonBy(CoreOf(t), w, term) && Core.WonBy(CoreOf(t), x, term);
  }

  lemma RunLeaderWon(states: seq<State>, steps: seq<Step>, i: nat, n: NodeId)
    requires IsRun(CURRENT, states, steps) && i < |states| && n in states[i].node && states[i].node[n].role == Leader
    ensures WonTerm(states[i], n, states[i].node[n].currentTerm)
  {
    RunInv(states, steps, i);
    LeaderWon(states[i], n);
  }

  /**
   * Whatever happens to the membership: if the elections of a term were counted against
   * configurations whose majorities meet, the term has at most one leader.
   */
  lemma TermSafety(states: seq<State>, steps: seq<Step>, i: nat, j: nat, a: NodeId, b: NodeId)
    requires IsRun(CURRENT, states, steps) && i <= j < |states|
    requires a in states[i].node && states[i].node[a].role == Leader
    requires b in states[j].node && states[j].node[b].role == Leader
    requires states[i].node[a].currentTerm == states[j].node[b].currentTerm
    requires ElectionsMeet(states[j], states[j].node[b].currentTerm)
    ensures a == b
  {
    var term := states[j].node[b].currentTerm;
    RunTermInv(states, steps, term, j, j);
    RunKeeps(states, steps, i, j);
    RunLeaderWon(states, steps, i, a);
    RunLeaderWon(states, steps, j, b);
    OneWinner(states[i], states[j], a, b, term);
  }

  // ---------- Views of the cluster ----------

  /** Every node of `cluster` knows all the others. */
  ghost predicate FullyConnected(s: State, cluster: set<NodeId>) {
    s.node.Keys == cluster && forall n :: n in s.node ==> s.node[n].peers == cluster - {n}
  }

  /** Every node and every election sees the cluster in one of the given ways. */
  ghost predicate SeesOnly(s: State, views: set<set<NodeId>>) {
    && (forall n :: n in s.node ==> s.node[n].peers + {n} in views)
    && (forall e :: 0 <= e < |s.elections| ==> Config(s.elections[e]) in views)
  }

  /** A membership step gives its node one of the given views. */
  predicate ShowsOnly(step: Step, views: set<set<NodeId>>) {
    match step
    case AddNode(n, ids) => Without(ids, n) + {n} in views
    case SetPeers(n, ids) => Without(ids, n) + {n} in views
    case _ => true
  }

  /** Any two views of more than one server have majorities that meet. */
  ghost predicate ViewsMeet(views: set<set<NodeId>>) {
    forall c, d :: c in views && d in views ==> Compatible(c, d)
  }

  ghost predicate Compatible(c: set<NodeId>, d: set<NodeId>) {
    |c| > 1 && |d| > 1 ==> AlwaysMeet(c, d)
  }

  lemma StepKeepsView(s: State, step: Step, views: set<set<NodeId>>)
    requires WellFormed(s) && Enabled(s, step) && ShowsOnly(step, views) && SeesOnly(s, views)
    ensures SeesOnly(Apply(s, step), views)
  {
    var t := Apply(s, step);
    forall n | n in t.node ensures t.node[n].peers + {n} in views {
      if n in s.node && !(step.SetPeers? && n == step.n) {
        assert t.node[n].peers == s.node[n].peers;
      }
    }
    forall e | 0 <= e < |t.elections| ensures Config(t.elections[e]) in views {
      if e < |s.elections| {
        assert Config(t.elections[e]) == Config(s.elections[e]);
      }
    }
  }

  lemma {:induction false} RunKeepsView(states: seq<State>, steps: seq<Step>, i: nat, views: set<set<NodeId>>)
    requires IsRun(CURRENT, states, steps) && i < |states| && SeesOnly(states[0], views)
    requires forall k :: 0 <= k < |steps| ==> ShowsOnly(steps[k], views)
    ensures SeesOnly(states[i], views)
  {
    if i > 0 {
      RunKeepsView(states, steps, i - 1, views);
      assert FollowsAt(CURRENT, states, steps, i - 1);
      StepKeepsView(states[i - 1], steps[i - 1], views);
    }
  }

  lemma SeenMeet(s: State, views: set<set<NodeId>>, term: nat)
    requires WellFormed(s) && SeesOnly(s, views) && ViewsMeet(views)
    ensures ElectionsMeet(s, term)
  {
    forall e, f | 0 <= e < |s.elections| && 0 <= f < |s.elections|
                  && Asks(s.elections[e], term) && Asks(s.elections[f], term)
      ensures AlwaysMeet(Config(s.elections[e]), Config(s.elections[f]))
    {
      PairMeets(s, views, term, s.elections[e], s.elections[f]);
    }
  }

  lemma PairMeets(s: State, views: set<set<NodeId>>, term: nat, b: Election, d: Election)
    requires ViewsMeet(views) && Config(b) in views && Config(d) in views
    requires ElectionWellFormed(s, b) && ElectionWellFormed(s, d) && Asks(b, term) && Asks(d, term)
    ensures AlwaysMeet(Config(b), Config(d))
  {
    AskedSize(s, b, term);
    AskedSize(s, d, term);
    assert Compatible(Config(b), Config(d));
  }

  lemma AskedSize(s: State, b: Election, term: nat)
    requires ElectionWellFormed(s, b) && Asks(b, term)
    ensures |Config(b)| > 1
  {
    assert |Config(b)| == |b.peers| + 1;
  }

  /** Election safety as long as all views that nodes are ever given meet. */
  lemma ViewsSafety(states: seq<State>, steps: seq<Step>, i: nat, j: nat, a: NodeId, b: NodeId, views: set<set<NodeId>>)
    requires IsRun(CURRENT, states, steps) && i <= j < |states| && SeesOnly(states[0], views) && ViewsMeet(views)
    requires forall k :: 0 <= k < |steps| ==> ShowsOnly(steps[k], views)
    requires a in states[i].node && states[i].node[a].role == Leader
    requires b in states[j].node && states[j].node[b].role == Leader
    requires states[i].node[a].currentTerm == states[j].node[b].currentTerm
    ensures a == b
  {
    RunKeepsView(states, steps, j, views);
    RunInv(states, steps, j);
    SeenMeet(states[j], views, states[j].node[b].currentTerm);
    TermSafety(states, steps, i, j, a, b);
  }

  // ---------- One server added ----------

  /** The step is one that adding server `x` to cluster `before` may take, or no membership step. */
  predicate AddsOnly(step: Step, before: set<NodeId>, x: NodeId) {
    match step
    case AddNode(n, ids) => n == x && Without(ids, n) == before
    case SetPeers(n, ids) => n in before + {x} && Without(ids, n) == before + {x} - {n}
    case _ => true
  }

  lemma OldAndNewMeet(before: set<NodeId>, x: NodeId)
    requires x !in before
    ensures ViewsMeet({before, before + {x}})
  {
    AlwaysMeetIff(before, before);
    AlwaysMeetIff(before, before + {x});
    AlwaysMeetIff(before + {x}, before + {x});
    MeetSymmetric(before, before + {x});
  }

  lemma MeetSymmetric(a: set<NodeId>, b: set<NodeId>)
    requires AlwaysMeet(a, b)
    ensures AlwaysMeet(b, a)
  {
    forall p: set<NodeId>, q: set<NodeId> | Majority(p, b) && Majority(q, a) ensures p * q != {} {
      assert q * p == p * q;
    }
  }

  lemma AddingShows(step: Step, before: set<NodeId>, x: NodeId)
    requires AddsOnly(step, before, x)
    ensures ShowsOnly(step, {before, before + {x}})
  {
    if step.SetPeers? {
      assert before + {x} - {step.n} + {step.n} == before + {x};
    }
  }

  lemma ConnectedSees(s: State, cluster: set<NodeId>, views: set<set<NodeId>>)
    requires Initial(s) && FullyConnected(s, cluster) && cluster in views
    ensures SeesOnly(s, views)
  {
    forall n | n in s.node ensures s.node[n].peers + {n} == cluster {}
  }

  /** Throughout an addition every node and election sees the cluster as before it or as after it. */
  lemma OneAdditionView(states: seq<State>, steps: seq<Step>, i: nat, before: set<NodeId>, x: NodeId)
    requires IsRun(CURRENT, states, steps) && i < |states| && FullyConnected(states[0], before) && x !in before
    requires forall k :: 0 <= k < |steps| ==> AddsOnly(steps[k], before, x)
    ensures SeesOnly(states[i], {before, before + {x}})
  {
    ConnectedSees(states[0], before, {before, before + {x}});
    forall k | 0 <= k < |steps| ensures ShowsOnly(steps[k], {before, before + {x}}) {
      AddingShows(steps[k], before, x);
    }
    RunKeepsView(states, steps, i, {before, before + {x}});
  }

  /** Election safety while one server is being added, however its steps interleave with elections. */
  lemma OneAdditionIsSafe(states: seq<State>, steps: seq<Step>, i: nat, j: nat, a: NodeId, b: NodeId,
          before: set<NodeId>, x: NodeId)
    requires IsRun(CURRENT, states, steps) && i <= j < |states| && FullyConnected(states[0], before) && x !in before
    requires forall k :: 0 <= k < |steps| ==> AddsOnly(steps[k], before, x)
    requires a in states[i].node && states[i].node[a].role == Leader
    requires b in states[j].node && states[j].node[b].role == Leader
    requires states[i].node[a].currentTerm == states[j].node[b].currentTerm
    ensures a == b
  {
    ConnectedSees(states[0], before, {before, before + {x}});
    forall k | 0 <= k < |steps| ensures ShowsOnly(steps[k], {before, before + {x}}) {
      AddingShows(steps[k], before, x);
    }
    OldAndNewMeet(before, x);
    ViewsSafety(states, steps, i, j, a, b, {before, before + {x}});
  }

  lemma FixedClusterMeets(states: seq<State>, steps: seq<Step>, i: nat, cluster: set<NodeId>, term: nat)
    requires IsRun(CURRENT, states, steps) && i < |states| && FullyConnected(states[0], cluster)
    requires forall k :: 0 <= k < |steps| ==> !steps[k].AddNode? && !steps[k].SetPeers?
    ensures ElectionsMeet(states[i], term)
  {
    ConnectedSees(states[0], cluster, {cluster});
    RunKeepsView(states, steps, i, {cluster});
    RunInv(states, steps, i);
    AlwaysMeetIff(cluster, cluster);
    SeenMeet(states[i], {cluster}, term);
  }

  /** Election safety of a cluster whose membership never changes. */
  lemma FixedClusterIsSafe(states: seq<State>, steps: seq<Step>, i: nat, j: nat, a: NodeId, b: NodeId,
          cluster: set<NodeId>)
    requires IsRun(CURRENT, states, steps) && i <= j < |states| && FullyConnected(states[0], cluster)
    requires forall k :: 0 <= k < |steps| ==> !steps[k].AddNode? && !steps[k].SetPeers?
    requires a in states[i].node && states[i].node[a].role == Leader
    requires b in states[j].node && states[j].node[b].role == Leader
    requires states[i].node[a].currentTerm == states[j].node[b].currentTerm
    ensures a == b
  {
    FixedClusterMeets(states, steps, j, cluster, states[j].node[b].currentTerm);
    TermSafety(states, steps, i, j, a, b);
  }

  // ---------- Terms ----------

  lemma StepRaisesTerms(s: State, step: Step, n: NodeId)
    requires WellFormed(s) && Enabled(s, step) && Current(s, step) && n in s.node
    ensures n in Apply(s, step).node && Apply(s, step).node[n].currentTerm >= s.node[n].currentTerm
  {
  }

  lemma {:induction false} TermsNeverFall(states: seq<State>, steps: seq<Step>, i: nat, j: nat, n: NodeId)
    requires IsRun(CURRENT, states, steps) && i <= j < |states| && n in states[i].node
    ensures n in states[j].node && states[j].node[n].currentTerm >= states[i].node[n].currentTerm
    decreases j
  {
    if i < j {
      TermsNeverFall(states, steps, i, j - 1, n);
      assert FollowsAt(CURRENT, states, steps, j - 1);
      StepRaisesTerms(states[j - 1], steps[j - 1], n);
    }
  }

  /** When a heartbeat reply lowers its receiver's term. */
  lemma HeartbeatReplyKeepsTermIff(n: Node, checksRole: bool, saved: nat, replyTerm: nat)
    ensures OnHeartbeatReply(n, checksRole, saved, replyTerm).currentTerm >= n.currentTerm
            <==> !((!checksRole || n.role == Leader) && saved < replyTerm < n.currentTerm)
  {
  }
}
