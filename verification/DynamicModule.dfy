/**
 * One node of the growing cluster, and the harness that grows it, as the mutable objects they are.
 * The node is proved against the rules of `Membership`, the harness against the membership steps
 * of `Growth`.
 */
module DynamicModules {
  import opened RaftTypes
  import opened Collections
  import M = Membership
  import G = Growth

  /** The variables that the goroutines of one election share. */
  class Election {
    const savedCurrentTerm: nat
    const peerIds: seq<NodeId>
    const clusterSize: nat
    var votesReceived: nat

    constructor (term: nat, peerIds: seq<NodeId>)
      ensures savedCurrentTerm == term && this.peerIds == peerIds
      ensures clusterSize == |peerIds| + 1 && votesReceived == 1
    {
      savedCurrentTerm, this.peerIds, clusterSize := term, peerIds, |peerIds| + 1;
      votesReceived := 1;
    }
  }

  class ConsensusModule {
    const id: NodeId
    /** Whether heartbeat replies are ignored once the node leads no more. */
    const checksRole: bool

    var peers: set<NodeId>
    var currentTerm: nat
    var votedFor: int
    var state: Role

    ghost function View(): M.Node
      reads this
    {
      M.Node(currentTerm, votedFor, state, peers)
    }

    constructor (id: NodeId, peerIds: seq<NodeId>, checksRole: bool)
      ensures this.id == id && this.checksRole == checksRole
      ensures View() == M.Node(0, NOBODY, Follower, M.Without(Elements(peerIds), id))
      ensures currentTerm == 0 && votedFor == -1 && state == Follower && peers == Elements(peerIds) - {id}
    {
      this.id, this.checksRole := id, checksRole;
      currentTerm, votedFor, state := 0, NOBODY, Follower;
      new;
      SetPeers(peerIds);
    }

    method SetPeers(peerIds: seq<NodeId>)
      modifies `peers
      ensures peers == M.Without(Elements(peerIds), id) == Elements(peerIds) - {id}
    {
      var newPeers := {};
      for i := 0 to |peerIds|
        invariant newPeers == M.Without(Elements(peerIds[..i]), id)
      {
        assert Elements(peerIds[..i + 1]) == Elements(peerIds[..i]) + {peerIds[i]};
        if peerIds[i] != id {
          newPeers := newPeers + {peerIds[i]};
        }
      }
      assert peerIds[..|peerIds|] == peerIds;
      peers := newPeers;
    }

    /** Lists every peer once, in no particular order. */
    method PeerIdSlice() returns (ids: seq<NodeId>)
      ensures Elements(ids) == peers && |ids| == |peers|
      ensures forall i, j :: 0 <= i < j < |ids| ==> ids[i] != ids[j]
    {
      ids := [];
      var rest := peers;
      while rest != {}
        invariant Elements(ids) + rest == peers && Elements(ids) !! rest
        invariant |ids| + |rest| == |peers|
        invariant forall i, j :: 0 <= i < j < |ids| ==> ids[i] != ids[j]
        decreases |rest|
      {
        var pid :| pid in rest;
        assert Elements(ids + [pid]) == Elements(ids) + {pid};
        assert pid !in Elements(ids);
        ids, rest := ids + [pid], rest - {pid};
      }
    }

    method BecomeFollower(term: nat)
      modifies `currentTerm, `votedFor, `state
      ensures View() == M.BecomeFollower(old(View()), term)
      ensures state == Follower && currentTerm == term && votedFor == -1
    {
      state := Follower;
      currentTerm := term;
      votedFor := NOBODY;
    }

    method RequestVote(term: nat, candidateId: NodeId) returns (reply: VoteReply)
      modifies `currentTerm, `votedFor, `state
      ensures (View(), reply) == M.OnRequestVote(old(View()), term, candidateId)
      ensures reply.term == currentTerm == if term > old(currentTerm) then term else old(currentTerm)
      ensures reply.granted <==>
                term == currentTerm
                && (term > old(currentTerm) || old(votedFor) == -1 || old(votedFor) == candidateId)
      ensures state == if term > old(currentTerm) then Follower else old(state)
      ensures votedFor == if reply.granted then candidateId
                          else if term > old(currentTerm) then -1 else old(votedFor)
    {
      if term > currentTerm {
        BecomeFollower(term);
      }
      var granted := false;
      if currentTerm == term && (votedFor == NOBODY || votedFor == candidateId) {
        granted := true;
        votedFor := candidateId;
      }
      reply := VoteReply(currentTerm, granted);
    }

    method AppendEntries(term: nat) returns (reply: AppendReply)
      modifies `currentTerm, `votedFor, `state
      ensures (View(), reply) == M.OnHeartbeat(old(View()), term)
      ensures reply.term == currentTerm == if term > old(currentTerm) then term else old(currentTerm)
      ensures reply.success <==> term >= old(currentTerm)
      ensures reply.success ==>
                state == Follower
                && votedFor == if term > old(currentTerm) || old(state) != Follower then -1 else old(votedFor)
      ensures !reply.success ==> state == old(state) && votedFor == old(votedFor)
    {
      if term > currentTerm {
        BecomeFollower(term);
      }
      var success := false;
      if term == currentTerm {
        if state != Follower {
          BecomeFollower(term);
        }
        success := true;
      }
      reply := AppendReply(currentTerm, success);
    }

    /** The peers and the cluster size of the election are those of the moment it starts. */
    method StartElection() returns (election: Election)
      modifies `currentTerm, `votedFor, `state
      ensures View() == M.StartElection(old(View()), id)
      ensures state == Candidate && currentTerm == old(currentTerm) + 1 && votedFor == id
      ensures fresh(election) && election.savedCurrentTerm == currentTerm && election.votesReceived == 1
      ensures Elements(election.peerIds) == peers && election.clusterSize == |peers| + 1
    {
      state := Candidate;
      currentTerm := currentTerm + 1;
      votedFor := id;
      var peerIds := PeerIdSlice();
      election := new Election(currentTerm, peerIds);
    }

    method StartLeader()
      modifies `state
      ensures View() == old(View()).(role := Leader)
    {
      state := Leader;
    }

    method HandleVoteReply(election: Election, reply: VoteReply)
      modifies `currentTerm, `votedFor, `state, election
      ensures (View(), election.votesReceived)
              == M.OnVoteReply(old(View()), election.savedCurrentTerm, election.clusterSize,
                   old(election.votesReceived), reply)
      ensures old(state) != Candidate || reply.term < election.savedCurrentTerm ==>
                View() == old(View()) && election.votesReceived == old(election.votesReceived)
      ensures old(state) == Candidate && reply.term > election.savedCurrentTerm ==>
                state == Follower && currentTerm == reply.term && votedFor == -1
                && election.votesReceived == old(election.votesReceived)
      ensures old(state) == Candidate && reply.term == election.savedCurrentTerm ==>
                && currentTerm == old(currentTerm) && votedFor == old(votedFor)
                && election.votesReceived == old(election.votesReceived) + (if reply.granted then 1 else 0)
                && state == if reply.granted && election.votesReceived * 2 > election.clusterSize
                            then Leader else Candidate
    {
      if state != Candidate {
        return;
      }
      if reply.term > election.savedCurrentTerm {
        BecomeFollower(reply.term);
        return;
      }
      if reply.term == election.savedCurrentTerm && reply.granted {
        election.votesReceived := election.votesReceived + 1;
        if election.votesReceived * 2 > election.clusterSize {
          StartLeader();
          return;
        }
      }
    }

    /** The targets and the term of one round of heartbeats. */
    method SendHeartbeats() returns (peerIds: seq<NodeId>, savedCurrentTerm: nat)
      ensures savedCurrentTerm == currentTerm
      ensures Elements(peerIds) == if state == Leader then peers else {}
    {
      savedCurrentTerm := currentTerm;
      if state != Leader {
        return [], savedCurrentTerm;
      }
      peerIds := PeerIdSlice();
    }

    method HandleHeartbeatReply(savedCurrentTerm: nat, replyTerm: nat)
      modifies `currentTerm, `votedFor, `state
      ensures View() == M.OnHeartbeatReply(old(View()), checksRole, savedCurrentTerm, replyTerm)
      ensures replyTerm > savedCurrentTerm && (!checksRole || old(state) == Leader) ==>
                state == Follower && currentTerm == replyTerm && votedFor == -1
      ensures replyTerm <= savedCurrentTerm || (checksRole && old(state) != Leader) ==> View() == old(View())
    {
      if checksRole && state != Leader {
        return;
      }
      if replyTerm > savedCurrentTerm {
        BecomeFollower(replyTerm);
      }
    }
  }

  /** Lists the ids below `n` other than `i`. */
  method IdsExcept(n: nat, i: nat) returns (peerIds: seq<NodeId>)
    ensures Elements(peerIds) == Ids(n) - {i}
  {
    peerIds := [];
    for j := 0 to n
      invariant Elements(peerIds) == Ids(j) - {i}
    {
      if j != i {
        assert Elements(peerIds + [j]) == Elements(peerIds) + {j};
        peerIds := peerIds + [j];
      }
    }
  }

  class Harness {
    var cluster: seq<ConsensusModule>
    var connected: seq<bool>
    var n: nat

    ghost predicate Valid()
      reads this
    {
      |cluster| == |connected| == n && forall i :: 0 <= i < n ==> cluster[i].id == i
    }

    /** The nodes as values. */
    ghost function Nodes(): map<NodeId, M.Node>
      requires Valid()
      reads this, cluster
    {
      map i: NodeId | i in Ids(n) :: cluster[i].View()
    }

    /** Every server knows all the others. */
    ghost predicate Complete()
      requires Valid()
      reads this, cluster
    {
      forall i :: 0 <= i < n ==> cluster[i].peers == Ids(n) - {i}
    }

    constructor (n: nat)
      ensures Valid() && Complete() && this.n == n
      ensures fresh(cluster) && forall i :: 0 <= i < n ==> connected[i]
      ensures forall i :: 0 <= i < n ==> cluster[i].View() == M.Node(0, NOBODY, Follower, Ids(n) - {i})
    {
      this.n, cluster, connected := n, [], [];
      new;
      for i := 0 to n
        invariant this.n == n && |cluster| == |connected| == i && fresh(cluster)
        invariant forall k :: 0 <= k < i ==> cluster[k].id == k && connected[k]
        invariant forall k :: 0 <= k < i ==> cluster[k].View() == M.Node(0, NOBODY, Follower, Ids(n) - {k})
      {
        var peerIds := IdsExcept(n, i);
        var s := new ConsensusModule(i, peerIds, true);
        cluster := cluster + [s];
        connected := connected + [true];
      }
    }

    /**
     * Adds one server, which starts out knowing all the others, and then tells the servers one by
     * one. `moments` are the nodes when none, one, two of them, and so on, have been told. By
     * `MomentsUnfold` they are what the membership steps of an addition make of the nodes, and by
     * `AdditionSeesEither` every server then sees the cluster as it was or as it will be.
     */
    method AddServer() returns (newId: NodeId, ghost moments: seq<map<NodeId, M.Node>>)
      requires Valid()
      modifies this, cluster`peers
      ensures Valid() && Complete() && newId == old(n) && n == old(n) + 1
      ensures old(cluster) <= cluster && fresh(cluster[newId]) && connected == old(connected) + [true]
      ensures G.Moments(moments, old(Nodes()), newId, n) && Nodes() == moments[n]
    {
      ghost var before := Nodes();
      newId := CreateServer();
      G.FirstMoment(before, newId);
      moments := UpdateMembership(newId, before);
    }

    /** Puts a new server, which knows all the others, into the cluster. */
    method CreateServer() returns (newId: NodeId)
      requires Valid()
      modifies this
      ensures Valid() && newId == old(n) && n == old(n) + 1
      ensures old(cluster) <= cluster && fresh(cluster[newId]) && connected == old(connected) + [true]
      ensures Nodes() == G.Grow(old(Nodes()), M.AddNode(newId, Ids(newId)))
    {
      newId := n;
      var peerIds := IdsExcept(n, newId);
      var s := new ConsensusModule(newId, peerIds, true);
      assert M.Without(Elements(peerIds), newId) == M.Without(Ids(newId), newId);
      cluster := cluster + [s];
      connected := connected + [true];
      n := n + 1;
    }

    /** Tells the servers one by one of the server that was just added to those of `before`. */
    method UpdateMembership(newId: NodeId, ghost before: map<NodeId, M.Node>)
      returns (ghost moments: seq<map<NodeId, M.Node>>)
      requires Valid() && n == newId + 1 && G.IsMoment(Nodes(), before, newId, 0)
      modifies cluster`peers
      ensures Complete() && G.Moments(moments, before, newId, n) && Nodes() == moments[n]
    {
      moments := [Nodes()];
      for i := 0 to n
        invariant G.Moments(moments, before, newId, i) && G.IsMoment(Nodes(), before, newId, i)
      {
        TellServer(i, before);
        G.OneMoreMoment(moments, Nodes(), before, newId, i);
        moments := moments + [Nodes()];
      }
      AllTold(before);
      G.OneMoment(Nodes(), moments[n], before, newId, n);
    }

    lemma AllTold(before: map<NodeId, M.Node>)
      requires Valid() && n > 0 && G.IsMoment(Nodes(), before, n - 1, n)
      ensures Complete()
    {
      forall i | 0 <= i < n ensures cluster[i].peers == Ids(n) - {i} {
        assert cluster[i].peers == Nodes()[i].peers;
        assert i < n - 1 ==> i in before;
        assert Ids(n) - {n - 1} == Ids(n - 1);
      }
    }

    /** Tells server `i` of all the others, when those before it know already. */
    method TellServer(i: nat, ghost before: map<NodeId, M.Node>)
      requires Valid() && i < n && G.IsMoment(Nodes(), before, n - 1, i)
      modifies cluster`peers
      ensures G.IsMoment(Nodes(), before, n - 1, i + 1)
    {
      G.NextMoment(Nodes(), before, n - 1, i);
      SetServer(i);
    }

    method SetServer(i: nat)
      requires Valid() && i < n
      modifies cluster`peers
      ensures Nodes() == G.Grow(old(Nodes()), M.SetPeers(i, Ids(n) - {i}))
    {
      var peers := IdsExcept(n, i);
      cluster[i].SetPeers(peers);
      assert M.Without(Elements(peers), i) == M.Without(Ids(n) - {i}, i) == Ids(n) - {i};
    }

    /** What matters of an addition to those that follow. */
    method AddNext() returns (newId: NodeId)
      requires Valid()
      modifies this, cluster`peers
      ensures Valid() && Complete() && newId == old(n) && n == old(n) + 1
      ensures old(cluster) <= cluster && fresh(cluster[newId])
    {
      ghost var moments;
      newId, moments := AddServer();
    }

    method AddServers(k: nat) returns (ids: seq<NodeId>)
      requires Valid()
      modifies this, cluster`peers
      ensures Valid() && n == old(n) + k && old(cluster) <= cluster
      ensures |ids| == k && forall j :: 0 <= j < k ==> ids[j] == old(n) + j
      ensures k > 0 || old(Complete()) ==> Complete()
    {
      ids := [];
      for i := 0 to k
        invariant Valid() && n == old(n) + i && old(cluster) <= cluster
        invariant forall j :: old(n) <= j < n ==> fresh(cluster[j])
        invariant |ids| == i && forall j :: 0 <= j < i ==> ids[j] == old(n) + j
        invariant i > 0 || old(Complete()) ==> Complete()
      {
        var id := AddNext();
        ids := ids + [id];
      }
    }
  }
}
