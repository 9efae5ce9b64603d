/** The membership steps by which the harness adds servers, and what they do to the nodes. */
module Growth {
  import opened RaftTypes
  import opened Collections
  import opened Membership
  import MembershipSafety

  predicate ChangesMembership(step: Step) {
    step.AddNode? || step.SetPeers?
  }

  /** The membership steps of adding a server to `n` others, of whom the first `told` know already. */
  ghost function AddSteps(n: nat, told: nat): (steps: seq<Step>)
    ensures |steps| == 1 + told
  {
    if told == 0 then [AddNode(n, Ids(n))] else AddSteps(n, told - 1) + [SetPeers(told - 1, Ids(n + 1) - {told - 1})]
  }

  ghost function Addition(n: nat): seq<Step> {
    AddSteps(n, n + 1)
  }

  /** The parts from number `lo` on, `k` of them, in a row. */
  ghost function Row(part: nat -> seq<Step>, lo: nat, k: nat): seq<Step> {
    if k == 0 then [] else Row(part, lo, k - 1) + part(lo + k - 1)
  }

  lemma {:induction false} RowsJoin(part: nat -> seq<Step>, lo: nat, k: nat, l: nat)
    ensures Row(part, lo, k) + Row(part, lo + k, l) == Row(part, lo, k + l)
  {
    if l == 0 {
      assert Row(part, lo, k) + [] == Row(part, lo, k);
    } else {
      RowsJoin(part, lo, k, l - 1);
      Associative(Row(part, lo, k), Row(part, lo + k, l - 1), part(lo + k + l - 1));
    }
  }

  /** The membership steps of adding `k` servers, one after the other, to `n` others. */
  ghost function AllAdditions(n: nat, k: nat): seq<Step> {
    Row(Addition, n, k)
  }

  lemma AdditionsJoin(n: nat, k: nat, l: nat)
    ensures AllAdditions(n, k) + AllAdditions(n + k, l) == AllAdditions(n, k + l)
  {
    RowsJoin(Addition, n, k, l);
  }

  lemma NextAddition(n: nat, k: nat)
    ensures AllAdditions(n, k + 1) == AllAdditions(n, k) + AddSteps(n + k, n + k + 1)
  {
  }

  /** Growing the harness by one server is an addition in the sense of `OneAdditionIsSafe`. */
  lemma {:induction false} AddServerAddsOnly(n: nat, told: nat, k: nat)
    requires told <= n + 1 && k <= told
    ensures n !in Ids(n) && MembershipSafety.AddsOnly(AddSteps(n, told)[k], Ids(n), n)
  {
    if k < told {
      AddServerAddsOnly(n, told - 1, k);
    } else if told > 0 {
      assert Ids(n) + {n} == Ids(n + 1);
    }
  }

  // ---------- What the steps do ----------

  /** The nodes after a membership step. */
  ghost function Grow(nodes: map<NodeId, Node>, step: Step): map<NodeId, Node> {
    match step
    case AddNode(n, ids) => nodes[n := Node(0, NOBODY, Follower, Without(ids, n))]
    case SetPeers(n, ids) => if n in nodes then nodes[n := nodes[n].(peers := Without(ids, n))] else nodes
    case _ => nodes
  }

  lemma ApplyGrows(s: State, step: Step)
    requires WellFormed(s) && Enabled(s, step) && ChangesMembership(step)
    ensures Apply(s, step) == s.(node := Grow(s.node, step))
  {
  }

  ghost function GrowAll(nodes: map<NodeId, Node>, steps: seq<Step>): map<NodeId, Node> {
    if steps == [] then nodes else Grow(GrowAll(nodes, steps[..|steps| - 1]), steps[|steps| - 1])
  }

  lemma GrowNext(nodes: map<NodeId, Node>, steps: seq<Step>, step: Step)
    ensures GrowAll(nodes, steps + [step]) == Grow(GrowAll(nodes, steps), step)
  {
    assert (steps + [step])[..|steps|] == steps;
  }

  lemma GrowFirst(nodes: map<NodeId, Node>, n: nat)
    ensures GrowAll(nodes, AddSteps(n, 0)) == Grow(nodes, AddNode(n, Ids(n)))
  {
    GrowNext(nodes, [], AddNode(n, Ids(n)));
    assert [] + [AddNode(n, Ids(n))] == AddSteps(n, 0);
  }

  /** The nodes when a server has been added to those of `before`, and the first `told` know. */
  predicate IsMoment(nodes: map<NodeId, Node>, before: map<NodeId, Node>, n: nat, told: nat) {
    && before.Keys == Ids(n) && nodes.Keys == Ids(n + 1)
    && nodes[n] == Node(0, NOBODY, Follower, Ids(n))
    && forall i :: i in before ==> nodes[i] == if i < told then before[i].(peers := Ids(n + 1) - {i}) else before[i]
  }

  lemma FirstMoment(before: map<NodeId, Node>, n: nat)
    requires before.Keys == Ids(n)
    ensures IsMoment(Grow(before, AddNode(n, Ids(n))), before, n, 0)
  {
    assert Without(Ids(n), n) == Ids(n);
  }

  lemma NextMoment(nodes: map<NodeId, Node>, before: map<NodeId, Node>, n: nat, told: nat)
    requires IsMoment(nodes, before, n, told) && told <= n
    ensures IsMoment(Grow(nodes, SetPeers(told, Ids(n + 1) - {told})), before, n, told + 1)
  {
    assert Without(Ids(n + 1) - {told}, told) == Ids(n + 1) - {told} && Ids(n + 1) - {n} == Ids(n);
  }

  lemma OneMoment(nodes: map<NodeId, Node>, other: map<NodeId, Node>, before: map<NodeId, Node>, n: nat, told: nat)
    requires IsMoment(nodes, before, n, told) && IsMoment(other, before, n, told)
    ensures nodes == other
  {
  }

  /** The moments of an addition up to the one when the first `told` servers know. */
  ghost predicate Moments(moments: seq<map<NodeId, Node>>, before: map<NodeId, Node>, n: nat, told: nat) {
    |moments| == told + 1 && forall k :: 0 <= k <= told ==> IsMoment(moments[k], before, n, k)
  }

  lemma OneMoreMoment(moments: seq<map<NodeId, Node>>, nodes: map<NodeId, Node>, before: map<NodeId, Node>, n: nat,
          told: nat)
    requires Moments(moments, before, n, told) && IsMoment(nodes, before, n, told + 1)
    ensures Moments(moments + [nodes], before, n, told + 1)
  {
  }

  lemma FirstUnfold(before: map<NodeId, Node>, n: nat)
    requires before.Keys == Ids(n)
    ensures IsMoment(GrowAll(before, AddSteps(n, 0)), before, n, 0)
  {
    GrowFirst(before, n);
    FirstMoment(before, n);
  }

  lemma {:induction false} StepsUnfold(before: map<NodeId, Node>, n: nat, told: nat)
    requires before.Keys == Ids(n) && told <= n + 1
    ensures IsMoment(GrowAll(before, AddSteps(n, told)), before, n, told)
  {
    if told == 0 {
      FirstUnfold(before, n);
    } else {
      var last: nat := told - 1;
      StepsUnfold(before, n, last);
      UnfoldOnce(before, n, last);
    }
  }

  lemma UnfoldOnce(before: map<NodeId, Node>, n: nat, told: nat)
    requires told <= n && IsMoment(GrowAll(before, AddSteps(n, told)), before, n, told)
    ensures IsMoment(GrowAll(before, AddSteps(n, told + 1)), before, n, told + 1)
  {
    NextMoment(GrowAll(before, AddSteps(n, told)), before, n, told);
    GrowNext(before, AddSteps(n, told), SetPeers(told, Ids(n + 1) - {told}));
  }

  /** The moments of an addition are what its membership steps make of the nodes, one after the other. */
  lemma MomentsUnfold(nodes: map<NodeId, Node>, before: map<NodeId, Node>, n: nat, told: nat)
    requires before.Keys == Ids(n) && told <= n + 1
    ensures IsMoment(nodes, before, n, told) <==> nodes == GrowAll(before, AddSteps(n, told))
  {
    StepsUnfold(before, n, told);
    if IsMoment(nodes, before, n, told) {
      OneMoment(nodes, GrowAll(before, AddSteps(n, told)), before, n, told);
    }
  }

  ghost predicate Takes(s: State, step: Step, t: State) {
    WellFormed(s) && Enabled(s, step) && t == Apply(s, step)
  }

  /** Taking all the steps, one after the other, leads from `s` to `t`. */
  ghost predicate TakesAll(s: State, steps: seq<Step>, t: State)
    decreases |steps|
  {
    if steps == [] then t == s
    else exists u :: TakesAll(s, Init(steps), u) && Takes(u, Last(steps), t)
  }

  function Init(steps: seq<Step>): (init: seq<Step>)
    requires steps != []
    ensures |init| < |steps|
  {
    steps[..|steps| - 1]
  }

  function Last(steps: seq<Step>): Step
    requires steps != []
  {
    steps[|steps| - 1]
  }

  lemma MomentWellFormed(s: State, nodes: map<NodeId, Node>, n: nat, told: nat)
    requires WellFormed(s) && IsMoment(nodes, s.node, n, told)
    ensures WellFormed(s.(node := nodes))
  {
    forall e | 0 <= e < |s.elections| ensures ElectionWellFormed(s.(node := nodes), s.elections[e]) {
      assert ElectionWellFormed(s, s.elections[e]);
    }
  }

  /** The next membership step can be taken in the cluster, and makes of the nodes what `Grow` says. */
  lemma NextTaken(s: State, n: nat, told: nat)
    requires WellFormed(s) && s.node.Keys == Ids(n) && told <= n
    ensures var step := SetPeers(told, Ids(n + 1) - {told});
            Takes(s.(node := GrowAll(s.node, AddSteps(n, told))), step,
                  s.(node := GrowAll(s.node, AddSteps(n, told + 1))))
  {
    var nodes, step := GrowAll(s.node, AddSteps(n, told)), SetPeers(told, Ids(n + 1) - {told});
    StepsUnfold(s.node, n, told);
    MomentWellFormed(s, nodes, n, told);
    ApplyGrows(s.(node := nodes), step);
    GrowNext(s.node, AddSteps(n, told), step);
  }

  /**
   * The cluster can take the membership steps of an addition, in a row, from any state with `n`
   * servers, and what they do is to make of its nodes what `GrowAll` says.
   */
  lemma {:induction false} AdditionTaken(s: State, n: nat, told: nat, t: State)
    requires WellFormed(s) && s.node.Keys == Ids(n) && told <= n + 1
    ensures TakesAll(s, AddSteps(n, told), t) <==> t == s.(node := GrowAll(s.node, AddSteps(n, told)))
  {
    var steps := AddSteps(n, told);
    if told == 0 {
      assert Init(steps) == [] && TakesAll(s, [], s);
      ApplyGrows(s, AddNode(n, Ids(n)));
      GrowFirst(s.node, n);
    } else {
      var last: nat := told - 1;
      assert Init(steps) == AddSteps(n, last);
      var before := s.(node := GrowAll(s.node, AddSteps(n, last)));
      AdditionTaken(s, n, last, before);
      NextTaken(s, n, last);
      if TakesAll(s, steps, t) {
        var u :| TakesAll(s, Init(steps), u) && Takes(u, Last(steps), t);
        AdditionTaken(s, n, last, u);
      }
    }
  }

  /** `n` servers that all know each other. */
  predicate Connected(nodes: map<NodeId, Node>, n: nat) {
    nodes.Keys == Ids(n) && forall i :: i in nodes ==> nodes[i].peers == Ids(n) - {i}
  }

  /** All nodes see the cluster as it was with `n` servers or as it is with one more, the first `told` the latter. */
  predicate SeeEither(nodes: map<NodeId, Node>, n: nat, told: nat) {
    && nodes.Keys == Ids(n + 1)
    && (forall i :: i in nodes ==> nodes[i].peers == Ids(n) - {i} || nodes[i].peers == Ids(n + 1) - {i})
    && (forall i :: i in nodes && i < told ==> nodes[i].peers == Ids(n + 1) - {i})
  }

  lemma MomentSeesEither(nodes: map<NodeId, Node>, before: map<NodeId, Node>, n: nat, told: nat)
    requires Connected(before, n) && told <= n + 1 && IsMoment(nodes, before, n, told)
    ensures SeeEither(nodes, n, told)
  {
    assert Ids(n + 1) - {n} == Ids(n) == Ids(n) - {n};
  }

  /** At every moment of an addition to connected servers, each server sees the cluster as before or as after it. */
  lemma AdditionSeesEither(moments: seq<map<NodeId, Node>>, before: map<NodeId, Node>, n: nat, k: nat)
    requires Moments(moments, before, n, n + 1) && Connected(before, n) && k <= n + 1
    ensures SeeEither(moments[k], n, k)
  {
    MomentSeesEither(moments[k], before, n, k);
  }
}
