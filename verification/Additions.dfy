/**
 * Adding several servers, one after the other, while elections go on: exactly when every term
 * still has at most one leader.
 */
module Additions {
  import opened RaftTypes
  import opened Collections
  import opened Quorums
  import opened Membership
  import opened MembershipSafety
  import opened MembershipRuns
  import opened Growth

  /**
   * What can be checked before adding `k` servers to `n`: nodes may see the cluster with any number
   * of servers from the smallest one in which an election can be won, which has two, up to n + k;
   * that must be at most one more, or two more than an even number.
   */
  predicate AdditionsMeet(n: nat, k: nat) {
    n + k <= Smallest(n) + 1 || (n + k == Smallest(n) + 2 && Smallest(n) % 2 == 0)
  }

  function Smallest(n: nat): nat {
    if n < 2 then 2 else n
  }

  /** A run of `n` connected servers whose membership steps are those of adding `k`, or the first of them. */
  ghost predicate AddsServers(states: seq<State>, steps: seq<Step>, n: nat, k: nat) {
    IsRun(CURRENT, states, steps) && FullyConnected(states[0], Ids(n)) && MembershipOf(steps) <= AllAdditions(n, k)
  }

  // ---------- Safe additions ----------

  /** The views of clusters of `lo` to `hi` servers. */
  ghost function Views(lo: nat, hi: nat): set<set<NodeId>> {
    set j: nat | lo <= j <= hi :: Ids(j)
  }

  lemma {:induction false} AdditionShows(n: nat, told: nat, r: nat, views: set<set<NodeId>>)
    requires told <= n + 1 && r <= told && Ids(n + 1) in views
    ensures ShowsOnly(AddSteps(n, told)[r], views)
  {
    if r < told {
      AdditionShows(n, told - 1, r, views);
    } else if told == 0 {
      assert Without(Ids(n), n) + {n} == Ids(n + 1);
    } else {
      assert Without(Ids(n + 1) - {told - 1}, told - 1) + {told - 1} == Ids(n + 1);
    }
  }

  lemma {:induction false} AdditionsShow(n: nat, k: nat, r: nat, hi: nat)
    requires n + k <= hi && r < |AllAdditions(n, k)|
    ensures ShowsOnly(AllAdditions(n, k)[r], Views(n, hi))
  {
    var j: nat := k - 1;
    NextAddition(n, j);
    var before := AllAdditions(n, j);
    if r < |before| {
      AdditionsShow(n, j, r, hi);
    } else {
      assert Ids(n + k) in Views(n, hi);
      AdditionShows(n + j, n + k, r - |before|, Views(n, hi));
    }
  }

  lemma SizesMeet(a: nat, b: nat)
    requires a <= b <= a + 1 || (b == a + 2 && a % 2 == 0)
    ensures AlwaysMeet(Ids(a), Ids(b)) && AlwaysMeet(Ids(b), Ids(a))
  {
    IdsSize(a);
    IdsSize(b);
    AlwaysMeetIff(Ids(a), Ids(b));
    MeetSymmetric(Ids(a), Ids(b));
  }

  /** The number of servers in a view. */
  lemma ViewSize(lo: nat, hi: nat, c: set<NodeId>) returns (a: nat)
    requires c in Views(lo, hi) && |c| > 1
    ensures lo <= a <= hi && a > 1 && c == Ids(a)
  {
    a :| lo <= a <= hi && c == Ids(a);
    IdsSize(a);
  }

  lemma TwoSizesMeet(n: nat, k: nat, a: nat, b: nat)
    requires AdditionsMeet(n, k) && n <= a <= n + k && n <= b <= n + k && a > 1 && b > 1
    ensures AlwaysMeet(Ids(a), Ids(b))
  {
    if a <= b {
      SizesMeet(a, b);
    } else {
      SizesMeet(b, a);
    }
  }

  lemma TwoViewsMeet(n: nat, k: nat, c: set<NodeId>, d: set<NodeId>)
    requires AdditionsMeet(n, k) && c in Views(n, n + k) && d in Views(n, n + k)
    ensures Compatible(c, d)
  {
    if |c| > 1 && |d| > 1 {
      var a := ViewSize(n, n + k, c);
      var b := ViewSize(n, n + k, d);
      TwoSizesMeet(n, k, a, b);
    }
  }

  lemma ViewsOfSizesMeet(n: nat, k: nat)
    requires AdditionsMeet(n, k)
    ensures ViewsMeet(Views(n, n + k))
  {
    forall c, d | c in Views(n, n + k) && d in Views(n, n + k) ensures Compatible(c, d) {
      TwoViewsMeet(n, k, c, d);
    }
  }

  lemma ListedShows(added: seq<Step>, n: nat, k: nat, step: Step)
    requires added <= AllAdditions(n, k) && step in added
    ensures ShowsOnly(step, Views(n, n + k))
  {
    var r :| 0 <= r < |added| && added[r] == step;
    AdditionsShow(n, k, r, n + k);
  }

  lemma StepsShow(steps: seq<Step>, n: nat, k: nat, i: nat)
    requires MembershipOf(steps) <= AllAdditions(n, k) && i < |steps|
    ensures ShowsOnly(steps[i], Views(n, n + k))
  {
    if ChangesMembership(steps[i]) {
      MembershipListed(steps, i);
      ListedShows(MembershipOf(steps), n, k, steps[i]);
    }
  }

  lemma SafeAdditions(states: seq<State>, steps: seq<Step>, n: nat, k: nat)
    requires AddsServers(states, steps, n, k) && AdditionsMeet(n, k)
    ensures OneLeaderEver(states)
  {
    ViewsOfSizesMeet(n, k);
    assert Ids(n) in Views(n, n + k);
    ConnectedSees(states[0], Ids(n), Views(n, n + k));
    forall i | 0 <= i < |steps| ensures ShowsOnly(steps[i], Views(n, n + k)) {
      StepsShow(steps, n, k, i);
    }
    forall i, j, a, b, term | LeadsAt(states, i, a, term) && LeadsAt(states, j, b, term) ensures a == b {
      if i <= j {
        ViewsSafety(states, steps, i, j, a, b, Views(n, n + k));
      } else {
        ViewsSafety(states, steps, j, i, b, a, Views(n, n + k));
      }
    }
  }

  // ---------- Unsafe additions ----------

  /** Membership steps change peer sets and nothing else. */
  ghost predicate SameButPeers(s: State, t: State) {
    && t == s.(node := t.node) && s.node.Keys <= t.node.Keys
    && forall i :: i in s.node ==> t.node[i] == s.node[i].(peers := t.node[i].peers)
  }

  predicate IsNew(n: Node) {
    n == Node(0, NOBODY, Follower, n.peers)
  }

  /** Server `n` has been added to servers 0 to n - 1, and the first `told` servers know. */
  ghost predicate Told(s: State, t: State, n: nat, told: nat) {
    && SameButPeers(s, t) && t.node.Keys == Ids(n + 1) && IsNew(t.node[n])
    && forall i :: i in t.node && i < told ==> t.node[i].peers == Ids(n + 1) - {i}
  }

  lemma TellFirst(s: State, n: nat)
    requires WellFormed(s) && s.node.Keys == Ids(n)
    ensures Enabled(s, AddNode(n, Ids(n))) && Told(s, Apply(s, AddNode(n, Ids(n))), n, 0)
  {
  }

  lemma TellNext(s: State, t: State, n: nat, told: nat)
    requires WellFormed(t) && s.node.Keys == Ids(n) && Told(s, t, n, told) && told <= n
    ensures var step := SetPeers(told, Ids(n + 1) - {told});
            Enabled(t, step) && Told(s, Apply(t, step), n, told + 1)
  {
    assert told in t.node && Without(Ids(n + 1) - {told}, told) == Ids(n + 1) - {told};
  }

  lemma OneMore(steps: seq<Step>, n: nat, told: nat)
    ensures steps + AddSteps(n, told + 1) == steps + AddSteps(n, told) + [SetPeers(told, Ids(n + 1) - {told})]
  {
  }

  lemma TakeFirst(first: State, s: State, added: seq<Step>, n: nat) returns (t: State)
    requires Arrives(CURRENT, first, s, added) && WellFormed(s) && s.node.Keys == Ids(n)
    ensures Arrives(CURRENT, first, t, added + AddSteps(n, 0)) && WellFormed(t) && Told(s, t, n, 0)
  {
    TellFirst(s, n);
    Take(CURRENT, first, s, added, AddNode(n, Ids(n)));
    t := Apply(s, AddNode(n, Ids(n)));
  }

  lemma TakeNext(first: State, s: State, u: State, added: seq<Step>, n: nat, told: nat) returns (t: State)
    requires Arrives(CURRENT, first, u, added + AddSteps(n, told)) && WellFormed(u)
    requires s.node.Keys == Ids(n) && Told(s, u, n, told) && told <= n
    ensures Arrives(CURRENT, first, t, added + AddSteps(n, told + 1)) && WellFormed(t) && Told(s, t, n, told + 1)
  {
    var step := SetPeers(told, Ids(n + 1) - {told});
    TellNext(s, u, n, told);
    Take(CURRENT, first, u, added + AddSteps(n, told), step);
    t := Apply(u, step);
    OneMore(added, n, told);
  }

  lemma AddOne(first: State, s: State, added: seq<Step>, n: nat) returns (t: State)
    requires Arrives(CURRENT, first, s, added) && WellFormed(s) && s.node.Keys == Ids(n)
    ensures Arrives(CURRENT, first, t, added + AddSteps(n, n + 1)) && WellFormed(t) && Told(s, t, n, n + 1)
  {
    t := TakeFirst(first, s, added, n);
    for told := 0 to n + 1
      invariant Arrives(CURRENT, first, t, added + AddSteps(n, told)) && WellFormed(t) && Told(s, t, n, told)
    {
      t := TakeNext(first, s, t, added, n, told);
    }
  }

  /** `k` servers have been added to `n`; if there were any, or all knew each other before, all do. */
  ghost predicate Added(s: State, t: State, n: nat, k: nat) {
    && SameButPeers(s, t) && t.node.Keys == Ids(n + k)
    && (forall i :: i in t.node && i >= n ==> IsNew(t.node[i]))
    && (k > 0 || Connected(s.node, n) ==> Connected(t.node, n + k))
  }

  lemma OneMoreAdded(s: State, u: State, t: State, n: nat, k: nat)
    requires Added(s, u, n, k) && Told(u, t, n + k, n + k + 1)
    ensures Added(s, t, n, k + 1)
  {
  }

  lemma AddNext(first: State, s: State, u: State, added: seq<Step>, n: nat, k: nat) returns (t: State)
    requires Arrives(CURRENT, first, u, added) && WellFormed(u) && Added(s, u, n, k)
    ensures Arrives(CURRENT, first, t, added + AddSteps(n + k, n + k + 1)) && WellFormed(t) && Added(s, t, n, k + 1)
  {
    t := AddOne(first, u, added, n + k);
    OneMoreAdded(s, u, t, n, k);
  }

  lemma AdditionsNext(added: seq<Step>, n: nat, k: nat)
    ensures added + AllAdditions(n, k + 1) == added + AllAdditions(n, k) + AddSteps(n + k, n + k + 1)
  {
    NextAddition(n, k);
    Associative(added, AllAdditions(n, k), AddSteps(n + k, n + k + 1));
  }

  lemma NoneAdded(s: State, n: nat)
    requires s.node.Keys == Ids(n)
    ensures Added(s, s, n, 0)
  {
  }

  lemma {:induction false} AddMany(first: State, s: State, added: seq<Step>, n: nat, k: nat) returns (t: State)
    requires Arrives(CURRENT, first, s, added) && WellFormed(s) && s.node.Keys == Ids(n)
    ensures Arrives(CURRENT, first, t, added + AllAdditions(n, k)) && WellFormed(t) && Added(s, t, n, k)
  {
    if k == 0 {
      t := s;
      NoneAdded(s, n);
      assert added + [] == added;
    } else {
      var j: nat := k - 1;
      var u := AddMany(first, s, added, n, j);
      t := AddNext(first, s, u, added + AllAdditions(n, j), n, j);
      AdditionsNext(added, n, j);
    }
  }

  /** An election in which the votes of `votes` more peers have been counted, without a majority yet. */
  predicate Progressed(b: Election, d: Election, votes: nat) {
    && d.candidate == b.candidate && d.term == b.term && d.peers == b.peers
    && d.votesReceived == b.votesReceived + votes
  }

  /** Nodes that are neither the candidate nor in the range are as they were. */
  predicate Untouched(s: State, t: State, c: NodeId, lo: nat, hi: nat) {
    s.node.Keys == t.node.Keys && forall i :: i in s.node && i != c && !(lo <= i < hi) ==> t.node[i] == s.node[i]
  }

  /** The candidate of election `e` may still ask all nodes of the range, and they are in earlier terms. */
  predicate MayAsk(s: State, e: nat, lo: nat, hi: nat) {
    && e < |s.elections|
    && var b := s.elections[e];
    && b.candidate in s.node && !(lo <= b.candidate < hi)
    && s.node[b.candidate].role == Candidate && s.node[b.candidate].currentTerm == b.term
    && forall i :: lo <= i < hi ==> i in b.waiting && i in s.node && s.node[i].currentTerm < b.term
  }

  lemma {:induction false} Gather(first: State, s: State, added: seq<Step>, e: nat, lo: nat, hi: nat, end: nat)
    returns (t: State)
    requires Arrives(CURRENT, first, s, added) && WellFormed(s) && lo <= hi <= end && MayAsk(s, e, lo, end)
    requires (s.elections[e].votesReceived + hi - lo) * 2 <= |s.elections[e].peers| + 1
    ensures Arrives(CURRENT, first, t, added) && WellFormed(t) && MayAsk(t, e, hi, end)
    ensures Progressed(s.elections[e], t.elections[e], hi - lo) && Untouched(s, t, s.elections[e].candidate, lo, hi)
  {
    if lo == hi {
      t := s;
    } else {
      var u := Gather(first, s, added, e, lo, hi - 1, end);
      t := AskAndCount(CURRENT, first, u, added, e, hi - 1);
    }
  }

  /** Node `c` of `n` connected ones campaigns and wins with the votes of the nodes from `lo` on. */
  lemma Win(first: State, s: State, added: seq<Step>, n: nat, c: NodeId, lo: nat) returns (t: State)
    requires Arrives(CURRENT, first, s, added) && WellFormed(s) && Connected(s.node, n) && n > 1
    requires c < n && lo + n / 2 <= n && !(lo <= c < lo + n / 2) && s.node[c].role != Leader
    requires forall i :: lo <= i < lo + n / 2 ==> s.node[i].currentTerm <= s.node[c].currentTerm
    ensures Arrives(CURRENT, first, t, added) && WellFormed(t) && Untouched(s, t, c, lo, lo + n / 2)
    ensures t.node[c].role == Leader && t.node[c].currentTerm == s.node[c].currentTerm + 1
  {
    var e, hi := |s.elections|, lo + n / 2;
    var u := Campaign(CURRENT, first, s, added, c);
    AllAskable(s, u, n, c, lo, hi);
    t := Complete(first, u, added, e, lo, hi);
  }

  /** All nodes of the range vote in election `e`, and their votes are just enough. */
  lemma Complete(first: State, s: State, added: seq<Step>, e: nat, lo: nat, hi: nat) returns (t: State)
    requires Arrives(CURRENT, first, s, added) && WellFormed(s) && lo < hi && MayAsk(s, e, lo, hi)
    requires var b := s.elections[e];
             (b.votesReceived + hi - 1 - lo) * 2 <= |b.peers| + 1 < (b.votesReceived + hi - lo) * 2
    ensures Arrives(CURRENT, first, t, added) && WellFormed(t)
    ensures var c := s.elections[e].candidate;
            Untouched(s, t, c, lo, hi) && t.node[c].role == Leader && t.node[c].currentTerm == s.elections[e].term
  {
    var v := Gather(first, s, added, e, lo, hi - 1, hi);
    t := Finish(first, v, added, e, hi - 1);
  }

  /** The vote that completes a majority. */
  lemma Finish(first: State, s: State, added: seq<Step>, e: nat, p: nat) returns (t: State)
    requires Arrives(CURRENT, first, s, added) && WellFormed(s) && MayAsk(s, e, p, p + 1) && Suffices(s.elections[e])
    ensures Arrives(CURRENT, first, t, added) && WellFormed(t)
    ensures var c := s.elections[e].candidate;
            Untouched(s, t, c, p, p + 1) && t.node[c].role == Leader && t.node[c].currentTerm == s.node[c].currentTerm
  {
    t := AskAndCount(CURRENT, first, s, added, e, p);
  }

  lemma AllAskable(s: State, u: State, n: nat, c: NodeId, lo: nat, hi: nat)
    requires Connected(s.node, n) && c < n && hi <= n && !(lo <= c < hi)
    requires forall i :: lo <= i < hi ==> s.node[i].currentTerm <= s.node[c].currentTerm
    requires u.node == s.node[c := StartElection(s.node[c], c)]
    requires u.elections == s.elections + [NextElection(s.node[c], c)]
    ensures MayAsk(u, |s.elections|, lo, hi) && |u.elections[|s.elections|].peers| == n - 1
    ensures u.elections[|s.elections|] == NextElection(s.node[c], c)
  {
    PeersSize(n, c);
  }

  lemma PeersSize(n: nat, c: NodeId)
    requires c < n
    ensures |Ids(n) - {c}| == n - 1
  {
    IdsSize(n);
    assert Ids(n) == Ids(n) - {c} + {c};
  }

  /** Two disjoint groups of electors: a majority of `m` servers, and one of `all`. */
  lemma RoomForTwo(n: nat, k: nat) returns (early: nat, late: nat, half: nat)
    requires !AdditionsMeet(n, k)
    ensures n + early == Smallest(n) && early + late == k && late > 0 && half == (n + early) / 2
    ensures half + 1 + (n + k) / 2 <= n + k - 1
  {
    early, late, half := Smallest(n) - n, k - (Smallest(n) - n), Smallest(n) / 2;
  }

  /**
   * Node 0 is elected by a majority of the smallest cluster in which that is possible; after all
   * additions the newest server is elected in the same term by a majority of those that are left.
   */
  lemma TwoLeaders(first: State, n: nat, k: nat) returns (t: State)
    requires Initial(first) && FullyConnected(first, Ids(n)) && !AdditionsMeet(n, k)
    ensures Arrives(CURRENT, first, t, AllAdditions(n, k)) && 0 < n + k - 1
    ensures t.node.Keys == Ids(n + k) && t.node[0].role == Leader && t.node[n + k - 1].role == Leader
    ensures t.node[0].currentTerm == t.node[n + k - 1].currentTerm
  {
    var early, late, half := RoomForTwo(n, k);
    t := LeadersAfter(first, n, early, late, half);
  }

  /** Node 0 leads term 1 in a cluster of `all`, of which those above `half` are in their first term. */
  predicate FirstLeads(s: State, half: nat, all: nat) {
    && s.node.Keys == Ids(all) && half < all
    && s.node[0].role == Leader && s.node[0].currentTerm == 1
    && forall i :: half < i < all ==> s.node[i].currentTerm == 0
  }

  lemma LeadersAfter(first: State, n: nat, early: nat, late: nat, half: nat) returns (t: State)
    requires Initial(first) && FullyConnected(first, Ids(n)) && n + early == Smallest(n) && late > 0
    requires half == (n + early) / 2 && half + 1 + (n + early + late) / 2 <= n + early + late - 1
    ensures var all := n + early + late;
            && Arrives(CURRENT, first, t, AllAdditions(n, early + late)) && t.node.Keys == Ids(all) && 0 < all - 1
            && t.node[0].role == Leader && t.node[all - 1].role == Leader
            && t.node[0].currentTerm == t.node[all - 1].currentTerm
  {
    var m := n + early;
    var s := FirstLeader(first, n, early, half);
    var u := GrowAround(first, s, AllAdditions(n, early), half, m, late);
    AdditionsJoin(n, early, late);
    assert half + 1 + (m + late) / 2 <= m + late - 1;
    t := NewestWins(first, u, AllAdditions(n, early + late), half, m + late);
  }

  lemma NewestWins(first: State, s: State, added: seq<Step>, half: nat, all: nat) returns (t: State)
    requires Arrives(CURRENT, first, s, added) && WellFormed(s) && Connected(s.node, all) && FirstLeads(s, half, all)
    requires half + 1 + all / 2 <= all - 1 && IsNew(s.node[all - 1])
    ensures Arrives(CURRENT, first, t, added) && t.node.Keys == Ids(all)
    ensures t.node[0].role == Leader && t.node[all - 1].role == Leader
    ensures t.node[0].currentTerm == t.node[all - 1].currentTerm
  {
    t := Win(first, s, added, all, all - 1, half + 1);
  }

  lemma GrowAround(first: State, s: State, added: seq<Step>, half: nat, m: nat, late: nat) returns (u: State)
    requires Arrives(CURRENT, first, s, added) && WellFormed(s) && FirstLeads(s, half, m) && 0 < late
    ensures Arrives(CURRENT, first, u, added + AllAdditions(m, late)) && WellFormed(u) && Connected(u.node, m + late)
    ensures FirstLeads(u, half, m + late) && IsNew(u.node[m + late - 1])
  {
    u := AddMany(first, s, added, m, late);
    StillNew(s, u, half, m, late);
  }

  lemma FirstLeader(first: State, n: nat, early: nat, half: nat) returns (t: State)
    requires Initial(first) && FullyConnected(first, Ids(n)) && n + early > 1 && half == (n + early) / 2
    ensures Arrives(CURRENT, first, t, AllAdditions(n, early)) && WellFormed(t) && FirstLeads(t, half, n + early)
  {
    var s := Beginning(first, n, early);
    t := Win(first, s, AllAdditions(n, early), n + early, 0, 1);
  }

  lemma Beginning(first: State, n: nat, early: nat) returns (t: State)
    requires Initial(first) && FullyConnected(first, Ids(n))
    ensures Arrives(CURRENT, first, t, AllAdditions(n, early)) && WellFormed(t) && Connected(t.node, n + early)
    ensures forall i :: i in t.node ==> t.node[i].role == Follower && t.node[i].currentTerm == 0
  {
    Start(CURRENT, first);
    t := AddMany(first, first, [], n, early);
    assert [] + AllAdditions(n, early) == AllAdditions(n, early);
  }

  /** Additions leave the first leader and those in their first term as they are. */
  lemma StillNew(s: State, u: State, half: nat, m: nat, late: nat)
    requires FirstLeads(s, half, m) && Added(s, u, m, late) && late > 0
    ensures FirstLeads(u, half, m + late) && Connected(u.node, m + late) && IsNew(u.node[m + late - 1])
  {
    forall i | half < i < m + late ensures u.node[i].currentTerm == 0 {
      assert i < m ==> i in s.node;
    }
  }

  // ---------- Exactly when ----------

  lemma UnsafeAdditions(n: nat, k: nat) returns (states: seq<State>, steps: seq<Step>)
    requires !AdditionsMeet(n, k)
    ensures AddsServers(states, steps, n, k) && !OneLeaderEver(states)
  {
    var first := Started(true, Ids(n));
    var t := TwoLeaders(first, n, k);
    states, steps :| ArrivesBy(CURRENT, first, states, steps, t, AllAdditions(n, k));
    var last, term := |steps|, t.node[0].currentTerm;
    assert LeadsAt(states, last, 0, term) && LeadsAt(states, last, n + k - 1, term);
  }

  /** Adding `k` servers to `n` while elections go on is safe exactly when all views on the way meet. */
  lemma AdditionsSafeIff(n: nat, k: nat)
    ensures (forall states, steps :: AddsServers(states, steps, n, k) ==> OneLeaderEver(states))
            <==> AdditionsMeet(n, k)
  {
    if AdditionsMeet(n, k) {
      forall states, steps | AddsServers(states, steps, n, k) ensures OneLeaderEver(states) {
        SafeAdditions(states, steps, n, k);
      }
    } else {
      var states, steps := UnsafeAdditions(n, k);
    }
  }

  /** Two consecutive additions to a cluster of two servers or more are safe exactly for even sizes. */
  lemma TwoAdditionsSafeIff(n: nat)
    requires n >= 2
    ensures (forall states, steps :: AddsServers(states, steps, n, 2) ==> OneLeaderEver(states)) <==> n % 2 == 0
  {
    AdditionsSafeIff(n, 2);
  }
}
