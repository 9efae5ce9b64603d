/** One node of the cluster as the mutable object it is, proved against the rules of `NodeRules`. */
module ConsensusModules {
  import opened RaftTypes
  import opened Collections
  import opened NodeRules

  /** The variables that the goroutines of one election share. */
  class Election {
    const savedCurrentTerm: nat
    var votesReceived: nat

    constructor (term: nat)
      ensures savedCurrentTerm == term && votesReceived == 1
    {
      savedCurrentTerm := term;
      votesReceived := 1;
    }
  }

  class ConsensusModule {
    const id: NodeId
    const peerIds: seq<NodeId>

    var currentTerm: nat
    var votedFor: int
    var log: Log
    var commitIndex: int
    var lastApplied: int
    var state: Role
    var nextIndex: map<NodeId, int>
    var matchIndex: map<NodeId, int>
    var newCommitReady: nat
    var outIndex: int
    var outbox: Log
    var delivered: seq<CommitEntry>

    /** The peers are listed once each, and the node is not one of them. */
    ghost predicate Valid() {
      id !in peerIds && forall i, j :: 0 <= i < j < |peerIds| ==> peerIds[i] != peerIds[j]
    }

    ghost function Peers(): set<NodeId> {
      set p | p in peerIds
    }

    ghost function View(): Node
      reads this
    {
      Node(currentTerm, votedFor, state, log, commitIndex, lastApplied, nextIndex, matchIndex,
           newCommitReady, outIndex, outbox, delivered)
    }

    constructor (id: NodeId, peerIds: seq<NodeId>)
      ensures this.id == id && this.peerIds == peerIds && View() == FRESH
      ensures state == Follower && currentTerm == 0 && votedFor == -1 && log == []
      ensures commitIndex == lastApplied == -1 && nextIndex == matchIndex == map[]
      ensures newCommitReady == outIndex == 0 && outbox == [] && delivered == []
    {
      this.id, this.peerIds := id, peerIds;
      currentTerm, votedFor, log, state := 0, NOBODY, [], Follower;
      commitIndex, lastApplied := -1, -1;
      nextIndex, matchIndex := map[], map[];
      newCommitReady, outIndex, outbox, delivered := 0, 0, [], [];
    }

    method BecomeFollower(term: nat)
      modifies this
      ensures View() == NodeRules.BecomeFollower(old(View()), term)
      ensures View() == old(View()).(role := Follower, currentTerm := term, votedFor := -1)
    {
      state := Follower;
      currentTerm := term;
      votedFor := NOBODY;
    }

    method LastLogIndexAndTerm() returns (index: int, term: int)
      ensures index == LastIndex(log) && term == LastTerm(log)
      ensures index == |log| - 1 && term == if log == [] then -1 else log[|log| - 1].term
    {
      if |log| > 0 {
        var lastIndex := |log| - 1;
        return lastIndex, log[lastIndex].term;
      } else {
        return -1, -1;
      }
    }

    /** The last entry described in `args` is at least as recent as the last one of the log. */
    predicate LastIsRecent(args: VoteArgs)
      reads this
    {
      var lastIndex, lastTerm := |log| - 1, if log == [] then -1 else log[|log| - 1].term;
      args.lastLogTerm > lastTerm || (args.lastLogTerm == lastTerm && args.lastLogIndex >= lastIndex)
    }

    method RequestVote(args: VoteArgs) returns (reply: VoteReply)
      modifies this
      ensures (View(), reply) == OnRequestVote(old(View()), args)
      ensures reply.term == currentTerm == if args.term > old(currentTerm) then args.term else old(currentTerm)
      ensures reply.granted <==>
                && args.term == currentTerm && old(LastIsRecent(args))
                && (args.term > old(currentTerm) || old(votedFor) == -1 || old(votedFor) == args.candidateId)
      ensures View() == old(View()).(
                currentTerm := currentTerm,
                role := if args.term > old(currentTerm) then Follower else old(state),
                votedFor := if reply.granted then args.candidateId
                            else if args.term > old(currentTerm) then -1 else old(votedFor))
    {
      var lastLogIndex, lastLogTerm := LastLogIndexAndTerm();
      if args.term > currentTerm {
        BecomeFollower(args.term);
      }
      var granted := false;
      if currentTerm == args.term
         && (votedFor == NOBODY || votedFor == args.candidateId)
         && (args.lastLogTerm > lastLogTerm
             || (args.lastLogTerm == lastLogTerm && args.lastLogIndex >= lastLogIndex)) {
        granted := true;
        votedFor := args.candidateId;
      }
      reply := VoteReply(currentTerm, granted);
    }

    method StartElection() returns (election: Election)
      modifies this
      ensures View() == NodeRules.StartElection(old(View()), id)
      ensures View() == old(View()).(role := Candidate, currentTerm := old(currentTerm) + 1, votedFor := id)
      ensures fresh(election) && election.votesReceived == 1 && election.savedCurrentTerm == currentTerm
    {
      state := Candidate;
      currentTerm := currentTerm + 1;
      votedFor := id;
      election := new Election(currentTerm);
    }

    /** The map sends every peer to `value`, and has not changed elsewhere. */
    ghost predicate SetFor(before: map<NodeId, int>, after: map<NodeId, int>, value: int) {
      && after.Keys == before.Keys + Peers()
      && forall p :: p in after ==> after[p] == if p in peerIds then value else before[p]
    }

    method StartLeader()
      requires Valid()
      modifies this
      ensures View() == NodeRules.StartLeader(old(View()), Peers())
      ensures View() == old(View()).(role := Leader, nextIndex := nextIndex, matchIndex := matchIndex)
      ensures SetFor(old(nextIndex), nextIndex, |log|) && SetFor(old(matchIndex), matchIndex, -1)
    {
      state := Leader;
      ghost var n := old(View());
      for i := 0 to |peerIds|
        invariant View() == NodeRules.StartLeader(n, Elements(peerIds[..i]))
      {
        LeaderStep(n, peerIds, i);
        nextIndex := nextIndex[peerIds[i] := |log|];
        matchIndex := matchIndex[peerIds[i] := -1];
      }
      assert Elements(peerIds[..|peerIds|]) == Peers();
    }

    lemma PeersCount()
      requires Valid()
      ensures |Peers()| == |peerIds|
    {
      DistinctCount(peerIds);
      assert Peers() == Elements(peerIds);
    }

    method HandleVoteReply(election: Election, reply: VoteReply)
      requires Valid()
      modifies this, election
      ensures (View(), election.votesReceived)
              == OnVoteReply(old(View()), Peers(), election.savedCurrentTerm, old(election.votesReceived), reply)
      ensures old(state) != Candidate || reply.term < election.savedCurrentTerm ==>
                View() == old(View()) && election.votesReceived == old(election.votesReceived)
      ensures old(state) == Candidate && reply.term > election.savedCurrentTerm ==>
                && View() == old(View()).(role := Follower, currentTerm := reply.term, votedFor := -1)
                && election.votesReceived == old(election.votesReceived)
      ensures old(state) == Candidate && reply.term == election.savedCurrentTerm ==>
                && election.votesReceived == old(election.votesReceived) + (if reply.granted then 1 else 0)
                && (state == Leader <==> reply.granted && election.votesReceived * 2 > |peerIds| + 1)
                && (state != Leader ==> View() == old(View()))
                && (state == Leader ==>
                      && View() == old(View()).(role := Leader, nextIndex := nextIndex, matchIndex := matchIndex)
                      && SetFor(old(nextIndex), nextIndex, |log|) && SetFor(old(matchIndex), matchIndex, -1))
    {
      if state != Candidate {
        return;
      }
      if reply.term > election.savedCurrentTerm {
        BecomeFollower(reply.term);
        return;
      } else if reply.term == election.savedCurrentTerm {
        if reply.granted {
          election.votesReceived := election.votesReceived + 1;
          PeersCount();
          if election.votesReceived * 2 > |peerIds| + 1 {
            StartLeader();
            return;
          }
        }
      }
    }

    method Submit(command: Command) returns (accepted: bool)
      modifies this
      ensures (View(), accepted) == NodeRules.Submit(old(View()), command)
      ensures accepted <==> old(state) == Leader
      ensures View() == old(View()).(log := old(log) + if accepted then [LogEntry(command, currentTerm)] else [])
    {
      if state == Leader {
        log := log + [LogEntry(command, currentTerm)];
        return true;
      }
      return false;
    }

    /** What a heartbeat goroutine, started in term `savedCurrentTerm`, sends to a peer. */
    method BuildAppend(peerId: NodeId, savedCurrentTerm: nat) returns (args: AppendArgs)
      requires NextInRange(View(), peerId)
      ensures args == Snapshot(View(), id, peerId, savedCurrentTerm)
      ensures args.term == savedCurrentTerm && args.leaderId == id && args.leaderCommit == commitIndex
      ensures args.prevLogIndex + 1 == if peerId in nextIndex then nextIndex[peerId] else 0
      ensures args.prevLogTerm == if args.prevLogIndex >= 0 then log[args.prevLogIndex].term else -1
      ensures args.entries == log[args.prevLogIndex + 1..]
    {
      var ni := if peerId in nextIndex then nextIndex[peerId] else 0;
      var prevLogIndex := ni - 1;
      var prevLogTerm: int := -1;
      if prevLogIndex >= 0 {
        prevLogTerm := log[prevLogIndex].term;
      }
      var entries := log[ni..];
      args := AppendArgs(savedCurrentTerm, id, prevLogIndex, prevLogTerm, entries, commitIndex);
    }

    method AppendEntries(args: AppendArgs) returns (reply: AppendReply)
      requires args.prevLogIndex >= -1
      modifies this
      ensures (View(), reply) == OnAppendEntries(old(View()), args)
      ensures reply.term == currentTerm == if args.term > old(currentTerm) then args.term else old(currentTerm)
      ensures reply.success <==>
                && args.term == currentTerm
                && (args.prevLogIndex == -1 || (args.prevLogIndex < |old(log)|
                    && args.prevLogTerm == old(log)[args.prevLogIndex].term))
      ensures args.term == currentTerm ==> state == Follower
      ensures args.term < currentTerm ==> View() == old(View())
      ensures args.term == currentTerm ==>
                View() == old(View()).(
                  currentTerm := currentTerm, role := Follower,
                  votedFor := if args.term > old(currentTerm) || old(state) != Follower then -1 else old(votedFor),
                  log := log, commitIndex := commitIndex, pending := newCommitReady)
      ensures !reply.success ==> log == old(log)
      ensures reply.success ==> log == Merge(old(log), args.prevLogIndex + 1, args.entries)
      ensures CommitFollows(old(commitIndex), old(newCommitReady), reply.success, args.leaderCommit)
    {
      if args.term > currentTerm {
        BecomeFollower(args.term);
      }
      var success := false;
      if args.term == currentTerm {
        if state != Follower {
          BecomeFollower(args.term);
        }
        if args.prevLogIndex == -1
           || (args.prevLogIndex < |log| && args.prevLogTerm == log[args.prevLogIndex].term) {
          success := true;
          TakeEntries(args);
        }
      }
      reply := AppendReply(currentTerm, success);
    }

    /** The commit index follows the leader's if the request was accepted, as far as the log reaches. */
    predicate CommitFollows(before: int, notified: nat, accepted: bool, leaderCommit: int)
      reads this
    {
      if accepted && leaderCommit > before
      then commitIndex == (if leaderCommit < |log| then leaderCommit else |log| - 1) && newCommitReady == notified + 1
      else commitIndex == before && newCommitReady == notified
    }

    /** The branch in which the previous entry matches. */
    method TakeEntries(args: AppendArgs)
      requires PrevMatches(log, args)
      modifies this
      ensures View() == AcceptEntries(old(View()), args)
      ensures View() == old(View()).(log := log, commitIndex := commitIndex, pending := newCommitReady)
      ensures log == Merge(old(log), args.prevLogIndex + 1, args.entries)
      ensures CommitFollows(old(commitIndex), old(newCommitReady), true, args.leaderCommit)
    {
      MergeEntries(args.prevLogIndex + 1, args.entries);
      if args.leaderCommit > commitIndex {
        commitIndex := Min(args.leaderCommit, |log| - 1);
        newCommitReady := newCommitReady + 1;
      }
    }

    /** The new entries are spliced in where they first differ from the log; `MergeSplices` says what that leaves. */
    method MergeEntries(start: nat, entries: Log)
      requires start <= |log|
      modifies `log
      ensures log == Merge(old(log), start, entries)
    {
      var logInsertIndex, newEntriesIndex := FindConflict(start, entries);
      if newEntriesIndex < |entries| {
        log := log[..logInsertIndex] + entries[newEntriesIndex..];
      }
    }

    /** The loop that finds where they do. */
    method FindConflict(start: nat, entries: Log) returns (logInsertIndex: nat, newEntriesIndex: nat)
      requires start <= |log|
      ensures newEntriesIndex == Matching(log, start, entries) && logInsertIndex == start + newEntriesIndex
    {
      logInsertIndex, newEntriesIndex := start, 0;
      while true
        invariant newEntriesIndex <= |entries| && logInsertIndex == start + newEntriesIndex <= |log|
        invariant forall j :: 0 <= j < newEntriesIndex ==> log[start + j].term == entries[j].term
        decreases |entries| - newEntriesIndex
      {
        if logInsertIndex >= |log| || newEntriesIndex >= |entries| {
          break;
        }
        if log[logInsertIndex].term != entries[newEntriesIndex].term {
          break;
        }
        logInsertIndex := logInsertIndex + 1;
        newEntriesIndex := newEntriesIndex + 1;
      }
    }

    /** Handles the reply of a peer to the request `args`. */
    method HandleAppendReply(peerId: NodeId, args: AppendArgs, reply: AppendReply)
      requires Valid() && commitIndex >= -1
      modifies this
      ensures View() == OnAppendReply(old(View()), Peers(), peerId, args, reply)
      ensures reply.term > old(currentTerm) ==>
                View() == old(View()).(role := Follower, currentTerm := reply.term, votedFor := -1)
      ensures reply.term <= old(currentTerm) && (old(state) != Leader || args.term != reply.term) ==>
                View() == old(View())
      ensures reply.term <= old(currentTerm) && old(state) == Leader && args.term == reply.term && !reply.success ==>
                View() == old(View()).(nextIndex := old(nextIndex)[peerId := args.prevLogIndex])
      ensures reply.term <= old(currentTerm) && old(state) == Leader && args.term == reply.term && reply.success ==>
                && View() == old(View()).(
                     nextIndex := old(nextIndex)[peerId := args.prevLogIndex + 1 + |args.entries|],
                     matchIndex := old(matchIndex)[peerId := args.prevLogIndex + |args.entries|],
                     commitIndex := commitIndex, pending := newCommitReady)
                && Advanced(old(commitIndex), old(newCommitReady))
    {
      if reply.term > currentTerm {
        BecomeFollower(reply.term);
        return;
      }
      if state == Leader && args.term == reply.term {
        if reply.success {
          nextIndex := nextIndex[peerId := args.prevLogIndex + 1 + |args.entries|];
          matchIndex := matchIndex[peerId := nextIndex[peerId] - 1];
          AdvanceCommitIndex();
        } else {
          nextIndex := nextIndex[peerId := args.prevLogIndex];
        }
      }
    }

    /**
     * The commit index is the last index, after the one before, of an entry of the present term
     * that a majority is known to hold, or is as before if there is none.
     */
    ghost predicate Advanced(before: int, notified: nat)
      requires before >= -1
      reads this
    {
      && (if commitIndex == before then newCommitReady == notified
          else
            && before < commitIndex < |log| && log[commitIndex].term == currentTerm && newCommitReady == notified + 1
            && exists q :: Suffice(q, Peers()) && AllHold(matchIndex, q, commitIndex))
      && forall i, q :: (before < i < |log| && log[i].term == currentTerm
                         && Suffice(q, Peers()) && AllHold(matchIndex, q, i)) ==> i <= commitIndex
    }

    lemma LoopAdvances(n: Node)
      requires View() == AdvanceCommit(n, Peers()) && n.commitIndex >= -1
      ensures Advanced(n.commitIndex, n.pending)
    {
      if commitIndex != n.commitIndex {
        var q := CommitHeld(n, Peers());
      }
      forall i, q | n.commitIndex < i < |log| && log[i].term == currentTerm && Suffice(q, Peers())
                    && AllHold(matchIndex, q, i)
        ensures i <= commitIndex
      {
        CommitReaches(n, Peers(), i, q);
      }
    }

    /** The commit loop, which raises the commit index while it scans upward from it. */
    method AdvanceCommitIndex()
      requires Valid() && commitIndex >= -1
      modifies this
      ensures View() == AdvanceCommit(old(View()), Peers())
      ensures View() == old(View()).(commitIndex := commitIndex, pending := newCommitReady)
      ensures Advanced(old(commitIndex), old(newCommitReady))
    {
      var savedCommitIndex := commitIndex;
      ghost var n := View();
      var i := commitIndex + 1;
      while i < |log|
        invariant View() == n.(commitIndex := commitIndex)
        invariant savedCommitIndex <= commitIndex < i
        invariant savedCommitIndex < |log| ==> i <= |log| && commitIndex == LastCommittable(n, Peers(), i - 1)
        invariant savedCommitIndex >= |log| ==> commitIndex == savedCommitIndex
      {
        if log[i].term == currentTerm {
          var matchCount := CountHolders(i);
          PeersCount();
          if matchCount * 2 > |peerIds| + 1 {
            commitIndex := i;
          }
        }
        i := i + 1;
      }
      if commitIndex != savedCommitIndex {
        newCommitReady := newCommitReady + 1;
      }
      LoopAdvances(n);
    }

    method CountHolders(i: int) returns (matchCount: nat)
      requires Valid()
      ensures matchCount == 1 + |Holders(View(), Peers(), i)|
      ensures matchCount == 1 + |set p | p in Peers() && (if p in matchIndex then matchIndex[p] else 0) >= i|
    {
      matchCount := 1;
      ghost var n := View();
      for k := 0 to |peerIds|
        invariant matchCount == 1 + |Holders(n, Elements(peerIds[..k]), i)|
      {
        var peerId := peerIds[k];
        HoldersStep(n, peerIds, k, i);
        if (if peerId in matchIndex then matchIndex[peerId] else 0) >= i {
          matchCount := matchCount + 1;
        }
      }
      assert peerIds[..|peerIds|] == peerIds && Elements(peerIds) == Peers();
      assert Holders(n, Peers(), i) == set p | p in Peers() && (if p in matchIndex then matchIndex[p] else 0) >= i;
    }

    /** The critical section of a round of the commit sender: take what became ready. */
    method TakeReady()
      requires newCommitReady > 0 && outbox == [] && ApplyInRange(View())
      modifies `newCommitReady, `outIndex, `outbox, `lastApplied
      ensures View() == TakeCommitted(old(View()))
      ensures View() == old(View()).(
                pending := old(newCommitReady) - 1,
                outIndex := old(lastApplied) + 1,
                outbox := if commitIndex > old(lastApplied) then log[old(lastApplied) + 1..commitIndex + 1] else [],
                lastApplied := if commitIndex > old(lastApplied) then commitIndex else old(lastApplied))
    {
      newCommitReady := newCommitReady - 1;
      outIndex := lastApplied + 1;
      if commitIndex > lastApplied {
        outbox := log[lastApplied + 1..commitIndex + 1];
        lastApplied := commitIndex;
      }
    }

    /** Outside it: hand the next entry to the client. */
    method SendNext()
      requires outbox != []
      modifies `outIndex, `outbox, `delivered
      ensures View() == Deliver(old(View()))
      ensures delivered == old(delivered) + [CommitEntry(old(outbox)[0].command, old(outIndex))]
      ensures outIndex == old(outIndex) + 1 && outbox == old(outbox)[1..]
    {
      delivered := delivered + [CommitEntry(outbox[0].command, outIndex)];
      outIndex := outIndex + 1;
      outbox := outbox[1..];
    }

    /** A round in which nothing else happens in between. */
    method CommitRound()
      requires newCommitReady > 0 && outbox == [] && ApplyInRange(View())
      modifies `newCommitReady, `outIndex, `outbox, `lastApplied, `delivered
      ensures View() == DeliverAll(TakeCommitted(old(View())))
      ensures newCommitReady == old(newCommitReady) - 1 && outbox == []
      ensures lastApplied == if commitIndex > old(lastApplied) then commitIndex else old(lastApplied)
      ensures |delivered| == |old(delivered)| + lastApplied - old(lastApplied)
      ensures forall k :: 0 <= k < |old(delivered)| ==> delivered[k] == old(delivered)[k]
      ensures forall k :: |old(delivered)| <= k < |delivered| ==>
                var i := old(lastApplied) + 1 + k - |old(delivered)|;
                0 <= i < |log| && delivered[k] == CommitEntry(log[i].command, i)
    {
      DeliverAllMeaning(TakeCommitted(View()));
      TakeReady();
      while outbox != []
        invariant DeliverAll(View()) == DeliverAll(TakeCommitted(old(View())))
        decreases |outbox|
      {
        SendNext();
      }
    }
  }

  /** Delivering until nothing is left. */
  ghost function DeliverAll(n: Node): Node
    decreases |n.outbox|
  {
    if n.outbox == [] then n else DeliverAll(Deliver(n))
  }

  /** The client receives all of the slice, in order, with consecutive indices, and nothing else. */
  lemma {:induction false} DeliverAllMeaning(n: Node)
    ensures var d, m := n.delivered, DeliverAll(n);
            && m == n.(outbox := [], outIndex := n.outIndex + |n.outbox|, delivered := m.delivered)
            && |m.delivered| == |d| + |n.outbox|
            && (forall k :: 0 <= k < |d| ==> m.delivered[k] == d[k])
            && (forall k :: |d| <= k < |m.delivered| ==>
                  m.delivered[k] == CommitEntry(n.outbox[k - |d|].command, n.outIndex + k - |d|))
    decreases |n.outbox|
  {
    if n.outbox != [] {
      DeliverAllMeaning(Deliver(n));
    }
  }

  lemma {:induction false} DistinctCount(s: seq<NodeId>)
    requires forall i, j :: 0 <= i < j < |s| ==> s[i] != s[j]
    ensures |Elements(s)| == |s|
  {
    if s != [] {
      var last := |s| - 1;
      DistinctCount(s[..last]);
      assert Elements(s) == Elements(s[..last]) + {s[last]};
    }
  }

  lemma FillStep(m: map<NodeId, int>, some: set<NodeId>, p: NodeId, value: int)
    ensures m + Fill(some + {p}, value) == (m + Fill(some, value))[p := value]
  {
  }

  lemma LeaderStep(n: Node, peerIds: seq<NodeId>, i: nat)
    requires i < |peerIds|
    ensures var m := NodeRules.StartLeader(n, Elements(peerIds[..i]));
            NodeRules.StartLeader(n, Elements(peerIds[..i + 1]))
            == m.(nextIndex := m.nextIndex[peerIds[i] := |n.log|], matchIndex := m.matchIndex[peerIds[i] := -1])
  {
    assert Elements(peerIds[..i + 1]) == Elements(peerIds[..i]) + {peerIds[i]};
    FillStep(n.nextIndex, Elements(peerIds[..i]), peerIds[i], |n.log|);
    FillStep(n.matchIndex, Elements(peerIds[..i]), peerIds[i], -1);
  }

  lemma OneMoreHolder(n: Node, some: set<NodeId>, p: NodeId, i: int)
    requires p !in some
    ensures |Holders(n, some + {p}, i)| == |Holders(n, some, i)| + if Lookup(n.matchIndex, p) >= i then 1 else 0
  {
    assert Holders(n, some + {p}, i) == Holders(n, some, i) + if Lookup(n.matchIndex, p) >= i then {p} else {};
  }

  lemma HoldersStep(n: Node, peerIds: seq<NodeId>, k: nat, i: int)
    requires k < |peerIds| && forall a, b :: 0 <= a < b < |peerIds| ==> peerIds[a] != peerIds[b]
    ensures |Holders(n, Elements(peerIds[..k + 1]), i)|
            == |Holders(n, Elements(peerIds[..k]), i)| + if Lookup(n.matchIndex, peerIds[k]) >= i then 1 else 0
  {
    assert Elements(peerIds[..k + 1]) == Elements(peerIds[..k]) + {peerIds[k]};
    OneMoreHolder(n, Elements(peerIds[..k]), peerIds[k], i);
  }
}
