/** Logs of the cluster: everything of a term comes from the one log of that term's leader. */
module ClusterLogs {
  import opened RaftTypes
  import opened NodeRules
  import opened Cluster
  import opened ClusterElections

  /** The two logs have their first `n` entries in common. */
  predicate Agree(a: Log, b: Log, n: int) {
    n <= |a| && n <= |b| && forall i :: 0 <= i < n ==> a[i] == b[i]
  }

  predicate Sorted(log: Log) {
    forall i, j :: 0 <= i < j < |log| ==> log[i].term <= log[j].term
  }

  predicate Bounded(log: Log, term: nat) {
    forall i :: 0 <= i < |log| ==> log[i].term <= term
  }

  /** Up to each of its entries, the log is a prefix of the log of that entry's term. */
  ghost predicate Rooted(s: State, log: Log) {
    forall i :: 0 <= i < |log| ==> RootedAt(s, log, i)
  }

  ghost predicate RootedAt(s: State, log: Log, i: nat)
    requires i < |log|
  {
    log[i].term in s.reigns && Agree(log, s.reigns[log[i].term].log, i + 1)
  }

  /** The logs of all nodes, and of the leader of every term, are rooted. */
  ghost predicate LogsRooted(s: State) {
    && (forall n :: n in s.node ==> Rooted(s, s.node[n].log))
    && (forall t :: t in s.reigns ==> Rooted(s, s.reigns[t].log))
  }

  predicate Ordered(log: Log, term: nat) {
    Sorted(log) && Bounded(log, term)
  }

  /** Terms never fall along a log and do not exceed that of its node or leader. */
  ghost predicate LogsOrdered(s: State) {
    && (forall n :: n in s.node ==> Ordered(s.node[n].log, s.node[n].currentTerm))
    && (forall t :: t in s.reigns ==> Ordered(s.reigns[t].log, t))
  }

  ghost predicate LogsSound(s: State) {
    LogsRooted(s) && LogsOrdered(s)
  }

  /** The same term at the same index means the same entries up to there. */
  predicate LogsMatch(a: Log, b: Log) {
    forall i :: 0 <= i < |a| && i < |b| && a[i].term == b[i].term ==> Agree(a, b, i + 1)
  }

  /** The length of the leader's log that a request conveys, together with what precedes it. */
  function Reach(a: AppendArgs): int {
    a.prevLogIndex + 1 + |a.entries|
  }

  /** The request carries a stretch of `log`. */
  predicate CarriesFrom(a: AppendArgs, log: Log) {
    && -1 <= a.prevLogIndex && Reach(a) <= |log|
    && a.prevLogTerm == (if a.prevLogIndex >= 0 then log[a.prevLogIndex].term else -1)
    && (forall j :: 0 <= j < |a.entries| ==> a.entries[j] == log[a.prevLogIndex + 1 + j])
  }

  /** The commit index in the request lies inside what it conveys. */
  predicate CommitWithin(a: AppendArgs) {
    -1 <= a.leaderCommit < Reach(a)
  }

  ghost predicate Carrier(s: State, a: AppendArgs, log: Log) {
    Rooted(s, log) && CarriesFrom(a, log)
  }

  /** Every request carries a stretch of some rooted log. */
  ghost predicate AppendsRooted(s: State) {
    forall m :: m in s.appendRequests ==> exists log :: Carrier(s, m.args, log)
  }

  /** Every request carries a stretch of the log of its term's leader. */
  ghost predicate AppendsSound(s: State) {
    forall m :: m in s.appendRequests ==> m.args.term in s.reigns && CarriesFrom(m.args, s.reigns[m.args.term].log)
  }

  /** As long as the candidate of an election is still campaigning, what it claimed is its log. */
  ghost predicate ClaimsSound(s: State) {
    && (forall m :: m in s.voteRequests ==> ClaimSound(s, m.election, m.args))
    && (forall m :: m in s.voteAnswers ==> ClaimSound(s, m.election, m.args))
  }

  predicate ClaimSound(s: State, e: nat, a: VoteArgs) {
    e < |s.elections| && s.elections[e].candidate in s.node &&
    var n := s.node[s.elections[e].candidate];
    n.role == Candidate && n.currentTerm == s.elections[e].term
    ==> a.lastLogIndex == LastIndex(n.log) && a.lastLogTerm == LastTerm(n.log)
  }

  // ---------- Merging ----------

  lemma SoundLogsMatch(s: State, a: Log, b: Log)
    requires Rooted(s, a) && Rooted(s, b)
    ensures LogsMatch(a, b)
  {
    forall i | 0 <= i < |a| && i < |b| && a[i].term == b[i].term ensures Agree(a, b, i + 1) {
      assert RootedAt(s, a, i) && RootedAt(s, b, i);
    }
  }

  /**
   * What an accepted request does to a log: nothing when the log already has what the request
   * conveys, and otherwise the log becomes exactly the conveyed prefix of the leader's log.
   */
  lemma MergeMeaning(log: Log, leaderLog: Log, a: AppendArgs)
    requires LogsMatch(log, leaderLog) && CarriesFrom(a, leaderLog) && PrevMatches(log, a)
    ensures Merge(log, a.prevLogIndex + 1, a.entries)
            == if Agree(log, leaderLog, Reach(a)) then log else leaderLog[..Reach(a)]
  {
    var at := a.prevLogIndex + 1;
    var k := Matching(log, at, a.entries);
    MatchedAgree(log, leaderLog, a, k);
    if k < |a.entries| {
      assert a.entries[k] == leaderLog[at + k];
      assert !Agree(log, leaderLog, Reach(a));
      SplicedPrefix(log, leaderLog, a, k);
    }
  }

  lemma MatchedAgree(log: Log, leaderLog: Log, a: AppendArgs, k: nat)
    requires LogsMatch(log, leaderLog) && CarriesFrom(a, leaderLog) && PrevMatches(log, a)
    requires k <= |a.entries| && a.prevLogIndex + 1 + k <= |log|
    requires forall j :: 0 <= j < k ==> log[a.prevLogIndex + 1 + j].term == a.entries[j].term
    ensures Agree(log, leaderLog, a.prevLogIndex + 1 + k)
  {
    var last := a.prevLogIndex + k;
    if last >= 0 {
      assert k > 0 ==> log[last].term == a.entries[k - 1].term == leaderLog[last].term;
    }
  }

  lemma SplicedPrefix(log: Log, leaderLog: Log, a: AppendArgs, k: nat)
    requires CarriesFrom(a, leaderLog) && k <= |a.entries| && Agree(log, leaderLog, a.prevLogIndex + 1 + k)
    ensures log[..a.prevLogIndex + 1 + k] + a.entries[k..] == leaderLog[..Reach(a)]
  {
    var cut := a.prevLogIndex + 1 + k;
    assert a.entries[k..] == leaderLog[cut..Reach(a)];
    assert log[..cut] == leaderLog[..cut];
  }

  // ---------- Steps ----------

  lemma RootedStays(s: State, t: State, log: Log)
    requires Evolves(s, t) && Rooted(s, log)
    ensures Rooted(t, log)
  {
    forall i | 0 <= i < |log| ensures RootedAt(t, log, i) {
      assert RootedAt(s, log, i);
      var u := log[i].term;
      assert ReignEvolves(s.reigns[u], t.reigns[u]);
    }
  }

  /** The log of a node after it has handled an append request carrying a stretch of `lead`. */
  lemma AppendMeaning(n: Node, lead: Log, a: AppendArgs)
    requires LogsMatch(n.log, lead) && CarriesFrom(a, lead)
    ensures var after := OnAppendEntries(n, a).0.log;
            && (after == n.log || after == lead[..Reach(a)])
            && (OnAppendEntries(n, a).1.success ==>
                  && after == (if Agree(n.log, lead, Reach(a)) then n.log else lead[..Reach(a)])
                  && Agree(after, lead, Reach(a)))
  {
    AppendLog(n, a);
    if PrevMatches(n.log, a) {
      MergeMeaning(n.log, lead, a);
    }
  }

  lemma AppendLog(n: Node, a: AppendArgs)
    ensures OnAppendEntries(n, a).1.success <==> a.term >= n.currentTerm && PrevMatches(n.log, a)
    ensures OnAppendEntries(n, a).0.log
            == if a.term >= n.currentTerm && PrevMatches(n.log, a)
               then Merge(n.log, a.prevLogIndex + 1, a.entries) else n.log
  {
  }

  lemma AppendMatches(s: State, m: AppendRequest)
    requires WellFormed(s) && LogsRooted(s) && AppendsSound(s) && m in s.appendRequests
    ensures LogsMatch(s.node[m.to].log, s.reigns[m.args.term].log)
  {
    SoundLogsMatch(s, s.node[m.to].log, s.reigns[m.args.term].log);
  }

  lemma RootedPrefix(s: State, log: Log, k: nat)
    requires Rooted(s, log) && k <= |log|
    ensures Rooted(s, log[..k])
  {
    forall i | 0 <= i < k ensures RootedAt(s, log[..k], i) {
      assert RootedAt(s, log, i);
    }
  }

  lemma StepKeepsNodeRooted(s: State, step: Step)
    requires WellFormed(s) && LogsRooted(s) && AppendsRooted(s) && LeadersLog(s)
    requires Enabled(s, step) && Evolves(s, Apply(s, step))
    ensures Rooted(Apply(s, step), Apply(s, step).node[Actor(s, step)].log)
  {
    var t, n := Apply(s, step), Actor(s, step);
    RootedStays(s, t, s.node[n].log);
    if step.RecvAppend? {
      AppendKeepsRooted(s, step);
    } else if step.ClientSubmit? {
      SubmitKeepsRooted(s, step);
    } else {
      OnlyTwoStepsWriteLogs(s, step);
    }
  }

  lemma AppendKeepsRooted(s: State, step: Step)
    requires WellFormed(s) && LogsRooted(s) && AppendsRooted(s)
    requires step.RecvAppend? && Enabled(s, step) && Evolves(s, Apply(s, step))
    ensures Rooted(Apply(s, step), Apply(s, step).node[step.append.to].log)
  {
    var t, m := Apply(s, step), step.append;
    var lead :| Carrier(s, m.args, lead);
    SoundLogsMatch(s, s.node[m.to].log, lead);
    AppendMeaning(s.node[m.to], lead, m.args);
    RootedPrefix(s, lead, Reach(m.args));
    RootedStays(s, t, lead[..Reach(m.args)]);
    RootedStays(s, t, s.node[m.to].log);
  }

  lemma OnlyTwoStepsWriteLogs(s: State, step: Step)
    requires WellFormed(s) && Enabled(s, step) && !step.RecvAppend? && !step.ClientSubmit?
    ensures Apply(s, step).node[Actor(s, step)].log == s.node[Actor(s, step)].log
  {
  }

  lemma SubmitKeepsRooted(s: State, step: Step)
    requires WellFormed(s) && LogsRooted(s) && LeadersLog(s) && step.ClientSubmit?
    requires Enabled(s, step) && Evolves(s, Apply(s, step))
    ensures Rooted(Apply(s, step), Apply(s, step).node[step.n].log)
  {
    var t, n := Apply(s, step), s.node[step.n];
    RootedStays(s, t, n.log);
    if n.role == Leader {
      SubmitExtends(s, step);
      ExtendedRooted(t, n.log, LogEntry(step.command, n.currentTerm));
    }
  }

  lemma SubmitExtends(s: State, step: Step)
    requires WellFormed(s) && LeadersLog(s) && step.ClientSubmit? && Enabled(s, step) && s.node[step.n].role == Leader
    ensures var n, m := s.node[step.n], Apply(s, step).node[step.n];
            && m.currentTerm == n.currentTerm && m.log == n.log + [LogEntry(step.command, n.currentTerm)]
            && n.currentTerm in Apply(s, step).reigns && Apply(s, step).reigns[n.currentTerm].log == m.log
  {
  }

  /** A rooted log stays rooted when an entry is added, if that makes it the log of the entry's term. */
  lemma ExtendedRooted(s: State, log: Log, entry: LogEntry)
    requires Rooted(s, log) && entry.term in s.reigns && s.reigns[entry.term].log == log + [entry]
    ensures Rooted(s, log + [entry])
  {
    forall i | 0 <= i <= |log| ensures RootedAt(s, log + [entry], i) {
      if i < |log| {
        assert RootedAt(s, log, i);
      }
    }
  }

  lemma StepKeepsLogsRooted(s: State, step: Step)
    requires WellFormed(s) && LogsRooted(s) && AppendsRooted(s) && LeadersLog(s)
    requires Enabled(s, step) && Evolves(s, Apply(s, step))
    ensures LogsRooted(Apply(s, step))
  {
    var t := Apply(s, step);
    StepKeepsNodeRooted(s, step);
    ActorFrame(s, step);
    forall n | n in t.node ensures Rooted(t, t.node[n].log) {
      if n != Actor(s, step) {
        RootedStays(s, t, s.node[n].log);
      }
    }
    forall u | u in t.reigns ensures Rooted(t, t.reigns[u].log) {
      ReignKeepsRooted(s, step, u);
    }
  }

  lemma ReignKeepsRooted(s: State, step: Step, u: nat)
    requires WellFormed(s) && LogsRooted(s) && LeadersLog(s) && Enabled(s, step) && Evolves(s, Apply(s, step))
    requires Rooted(Apply(s, step), Apply(s, step).node[Actor(s, step)].log)
    requires u in Apply(s, step).reigns
    ensures Rooted(Apply(s, step), Apply(s, step).reigns[u].log)
  {
    var t := Apply(s, step);
    if u in s.reigns && t.reigns[u].log == s.reigns[u].log {
      RootedStays(s, t, s.reigns[u].log);
    } else {
      NewReignLog(s, step, u);
    }
  }

  /** A reign's log that is new or longer is its leader's log. */
  lemma NewReignLog(s: State, step: Step, u: nat)
    requires WellFormed(s) && LeadersLog(s) && Enabled(s, step) && u in Apply(s, step).reigns
    requires u in s.reigns ==> Apply(s, step).reigns[u].log != s.reigns[u].log
    ensures var n := Apply(s, step).node[Actor(s, step)];
            n.role == Leader && n.currentTerm == u && n.log == Apply(s, step).reigns[u].log
  {
  }

  /** A request carries its sender's log at that moment. */
  lemma StepKeepsAppendsRooted(s: State, step: Step)
    requires WellFormed(s) && LogsRooted(s) && AppendsRooted(s) && Enabled(s, step) && Evolves(s, Apply(s, step))
    ensures AppendsRooted(Apply(s, step))
  {
    var t := Apply(s, step);
    OnlySendingAppends(s, step);
    forall m | m in t.appendRequests ensures exists log :: Carrier(t, m.args, log) {
      var log := CarriedLog(s, step, m);
      RootedStays(s, t, log);
      assert Carrier(t, m.args, log);
    }
  }

  lemma CarriedLog(s: State, step: Step, m: AppendRequest) returns (log: Log)
    requires WellFormed(s) && LogsRooted(s) && AppendsRooted(s) && Enabled(s, step)
    requires m in Apply(s, step).appendRequests
    ensures Carrier(s, m.args, log)
  {
    OnlySendingAppends(s, step);
    if m in s.appendRequests {
      log :| Carrier(s, m.args, log);
    } else {
      log := s.node[step.round.leader].log;
      SnapshotCarries(s.node[step.round.leader], step.round.leader, step.peer, step.round.term);
    }
  }

  // ---------- Terms along logs ----------

  lemma StepKeepsNodeOrdered(s: State, step: Step)
    requires WellFormed(s) && LogsSound(s) && AppendsSound(s) && LeadersLog(s)
    requires Enabled(s, step) && Evolves(s, Apply(s, step))
    ensures var m := Apply(s, step).node[Actor(s, step)]; Ordered(m.log, m.currentTerm)
  {
    var t, n := Apply(s, step), Actor(s, step);
    assert s.node[n].currentTerm <= t.node[n].currentTerm;
    if step.RecvAppend? {
      AppendKeepsOrdered(s, step);
    } else if step.ClientSubmit? {
      if s.node[n].role == Leader {
        SubmitExtends(s, step);
      }
    } else {
      OnlyTwoStepsWriteLogs(s, step);
    }
  }

  lemma AppendKeepsOrdered(s: State, step: Step)
    requires WellFormed(s) && LogsSound(s) && AppendsSound(s)
    requires step.RecvAppend? && Enabled(s, step) && Evolves(s, Apply(s, step))
    ensures var m := Apply(s, step).node[step.append.to]; Ordered(m.log, m.currentTerm)
  {
    var m := step.append;
    AppendMatches(s, m);
    AppendMeaning(s.node[m.to], s.reigns[m.args.term].log, m.args);
    AppendReaches(s.node[m.to], m.args);
  }

  /** A node whose log an append request changes has reached the request's term. */
  lemma AppendReaches(n: Node, a: AppendArgs)
    ensures var m := OnAppendEntries(n, a).0;
            m.currentTerm >= n.currentTerm && (m.log != n.log ==> m.currentTerm == a.term)
  {
  }

  lemma StepKeepsLogsOrdered(s: State, step: Step)
    requires WellFormed(s) && LogsSound(s) && AppendsSound(s) && LeadersLog(s)
    requires Enabled(s, step) && Evolves(s, Apply(s, step))
    ensures LogsOrdered(Apply(s, step))
  {
    var t := Apply(s, step);
    StepKeepsNodeOrdered(s, step);
    ActorFrame(s, step);
    forall u | u in t.reigns ensures Ordered(t.reigns[u].log, u) {
      if u !in s.reigns || t.reigns[u].log != s.reigns[u].log {
        NewReignLog(s, step, u);
      }
    }
  }

  // ---------- The leader's log ----------

  /** A leader's log stays the log of its reign. */
  lemma StepKeepsLeadersLog(s: State, step: Step)
    requires ElectionInv(s) && LeadersLog(s)
    requires Enabled(s, step) && Respects(s, step, VOTES) && ElectionInv(Apply(s, step))
    ensures LeadersLog(Apply(s, step))
  {
    var t := Apply(s, step);
    forall n | n in t.node && t.node[n].role == Leader
      ensures t.node[n].currentTerm in t.reigns && t.reigns[t.node[n].currentTerm].leader == n
      ensures t.reigns[t.node[n].currentTerm].log == t.node[n].log
    {
      LeaderReigns(t, n);
      LeaderLogStep(s, step, n);
    }
  }

  lemma LeaderLogStep(s: State, step: Step, n: NodeId)
    requires WellFormed(s) && LeadersLog(s) && Enabled(s, step) && Respects(s, step, VOTES)
    requires var t := Apply(s, step);
             n in t.node && t.node[n].role == Leader && t.node[n].currentTerm in t.reigns
             && t.reigns[t.node[n].currentTerm].leader == n
    ensures Apply(s, step).reigns[Apply(s, step).node[n].currentTerm].log == Apply(s, step).node[n].log
  {
    if step.RecvVoteAnswer? {
      AnswerLeaderLog(s, step, n);
    } else if step.ClientSubmit? {
      SubmitLeaderLog(s, step, n);
    } else {
      ActorFrame(s, step);
      OtherLeaderStays(s, step);
      SameReigns(s, step);
    }
  }

  lemma AnswerLeaderLog(s: State, step: Step, n: NodeId)
    requires WellFormed(s) && LeadersLog(s) && Enabled(s, step) && Respects(s, step, VOTES) && step.RecvVoteAnswer?
    requires var t := Apply(s, step);
             n in t.node && t.node[n].role == Leader && t.node[n].currentTerm in t.reigns
             && t.reigns[t.node[n].currentTerm].leader == n
    ensures Apply(s, step).reigns[Apply(s, step).node[n].currentTerm].log == Apply(s, step).node[n].log
  {
  }

  lemma SubmitLeaderLog(s: State, step: Step, n: NodeId)
    requires WellFormed(s) && LeadersLog(s) && Enabled(s, step) && step.ClientSubmit?
    requires n in Apply(s, step).node && Apply(s, step).node[n].role == Leader
    ensures Apply(s, step).node[n].currentTerm in Apply(s, step).reigns
    ensures Apply(s, step).reigns[Apply(s, step).node[n].currentTerm].log == Apply(s, step).node[n].log
  {
  }

  /** Other steps make nobody a leader, and leave a leader's term and log alone. */
  lemma OtherLeaderStays(s: State, step: Step)
    requires WellFormed(s) && Enabled(s, step) && !step.RecvVoteAnswer? && !step.ClientSubmit?
    ensures var n, m := s.node[Actor(s, step)], Apply(s, step).node[Actor(s, step)];
            m.role == Leader ==> n.role == Leader && m.currentTerm == n.currentTerm && m.log == n.log
  {
    match step
    case RecvVoteRequest(m) => VoteRequestRole(s.node[m.to], m.args);
    case RecvAppend(m) => AppendRole(s.node[m.to], m.args);
    case RecvAppendAnswer(m) =>
      AppendReplyRole(s.node[m.args.leaderId], Peers(s, m.args.leaderId), m.from, m.args, m.reply);
    case _ =>
  }

  lemma VoteRequestRole(n: Node, a: VoteArgs)
    ensures var m := OnRequestVote(n, a).0;
            m.role == Follower || (m.role == n.role && m.currentTerm == n.currentTerm && m.log == n.log)
  {
  }

  lemma VoteReplyRole(n: Node, peers: set<NodeId>, saved: nat, votes: nat, r: VoteReply)
    ensures var m := OnVoteReply(n, peers, saved, votes, r).0;
            m.role != Candidate || (m.role == n.role && m.currentTerm == n.currentTerm && m.log == n.log)
  {
  }

  lemma AppendRole(n: Node, a: AppendArgs)
    ensures var m := OnAppendEntries(n, a).0;
            m.role == Follower || (m.role == n.role && m.currentTerm == n.currentTerm && m.log == n.log)
  {
  }

  lemma AppendReplyRole(n: Node, peers: set<NodeId>, from: NodeId, a: AppendArgs, r: AppendReply)
    ensures var m := OnAppendReply(n, peers, from, a, r);
            m.role == Follower || (m.role == n.role && m.currentTerm == n.currentTerm && m.log == n.log)
  {
  }

  lemma StepKeepsAppendsSound(s: State, step: Step)
    requires WellFormed(s) && AppendsSound(s) && Enabled(s, step) && Evolves(s, Apply(s, step))
    requires step.SendAppend? ==> SentSound(s, step.round, step.peer)
    ensures AppendsSound(Apply(s, step))
  {
    var t := Apply(s, step);
    OnlySendingAppends(s, step);
    forall m | m in t.appendRequests
      ensures m.args.term in t.reigns && CarriesFrom(m.args, t.reigns[m.args.term].log)
    {
      assert m.args.term in s.reigns && CarriesFrom(m.args, s.reigns[m.args.term].log);
      assert ReignEvolves(s.reigns[m.args.term], t.reigns[m.args.term]);
    }
  }

  lemma OnlySendingAppends(s: State, step: Step)
    requires WellFormed(s) && Enabled(s, step)
    ensures Apply(s, step).appendRequests == s.appendRequests
              + if step.SendAppend?
                then {AppendRequest(step.peer, Snapshot(s.node[step.round.leader], step.round.leader, step.peer,
                     step.round.term))}
                else {}
  {
  }

  /** A snapshot taken while its sender still leads the captured term carries that term's log. */
  ghost predicate SentSound(s: State, r: Round, peer: NodeId) {
    && r.leader in s.node && NextInRange(s.node[r.leader], peer) && r.term in s.reigns
    && CarriesFrom(Snapshot(s.node[r.leader], r.leader, peer, r.term), s.reigns[r.term].log)
  }

  /** A snapshot is the entry before `nextIndex`, if any, and the whole log from there on. */
  lemma SnapshotCarries(l: Node, id: NodeId, peer: NodeId, saved: nat)
    requires NextInRange(l, peer)
    ensures CarriesFrom(Snapshot(l, id, peer, saved), l.log) && Reach(Snapshot(l, id, peer, saved)) == |l.log|
    ensures -1 <= l.commitIndex < |l.log| ==> CommitWithin(Snapshot(l, id, peer, saved))
  {
    var next := Lookup(l.nextIndex, peer);
    assert |l.log[next..]| == |l.log| - next;
  }

  lemma SnapshotSound(s: State, r: Round, peer: NodeId)
    requires LeadersLog(s) && r.leader in s.node && NextInRange(s.node[r.leader], peer)
    requires s.node[r.leader].role == Leader && s.node[r.leader].currentTerm == r.term
    ensures SentSound(s, r, peer)
  {
    SnapshotCarries(s.node[r.leader], r.leader, peer, r.term);
  }

  lemma StepKeepsClaimsSound(s: State, step: Step)
    requires ElectionInv(s) && ClaimsSound(s)
    requires Enabled(s, step) && Respects(s, step, VOTES) && Evolves(s, Apply(s, step))
    ensures ClaimsSound(Apply(s, step))
  {
    forall m | m in s.voteRequests ensures ClaimSound(Apply(s, step), m.election, m.args) {
      ClaimStays(s, step, m.election, m.args);
    }
    forall m | m in s.voteAnswers ensures ClaimSound(Apply(s, step), m.election, m.args) {
      ClaimStays(s, step, m.election, m.args);
    }
    NewClaims(s, step);
  }

  /** New requests are sound by themselves; new answers repeat the claim of a request. */
  lemma NewClaims(s: State, step: Step)
    requires WellFormed(s) && Enabled(s, step)
    ensures forall m :: m in Apply(s, step).voteRequests && m !in s.voteRequests ==>
              ClaimSound(Apply(s, step), m.election, m.args)
    ensures forall m :: m in Apply(s, step).voteAnswers && m !in s.voteAnswers ==>
              exists r :: r in s.voteRequests && r.election == m.election && r.args == m.args
  {
    if step.RecvVoteRequest? {
      assert step.request in s.voteRequests;
    }
  }

  lemma ClaimStays(s: State, step: Step, e: nat, a: VoteArgs)
    requires ElectionInv(s) && ClaimSound(s, e, a) && e < |s.elections|
    requires Enabled(s, step) && Respects(s, step, VOTES) && Evolves(s, Apply(s, step))
    ensures ClaimSound(Apply(s, step), e, a)
  {
    CandidateReached(s, e);
    CandidateKeepsLog(s, step, s.elections[e].candidate);
  }

  /** A node that is a candidate after a step either was one with the same log, or has a new term. */
  lemma CandidateKeepsLog(s: State, step: Step, c: NodeId)
    requires WellFormed(s) && Enabled(s, step) && c in s.node
    ensures var n, m := s.node[c], Apply(s, step).node[c];
            m.role == Candidate ==>
              (n.role == Candidate && n.currentTerm == m.currentTerm && n.log == m.log) || m.currentTerm > n.currentTerm
  {
    ActorFrame(s, step);
    if c == Actor(s, step) {
      match step
      case RecvVoteRequest(m) => VoteRequestRole(s.node[c], m.args);
      case RecvVoteAnswer(m) =>
        var b := s.elections[m.election];
        VoteReplyRole(s.node[c], Peers(s, c), b.term, b.votesReceived, m.reply);
      case RecvAppend(m) => AppendRole(s.node[c], m.args);
      case RecvAppendAnswer(m) => AppendReplyRole(s.node[c], Peers(s, c), m.from, m.args, m.reply);
      case _ => QuietCandidate(s, step);
    }
  }

  lemma QuietCandidate(s: State, step: Step)
    requires WellFormed(s) && Enabled(s, step)
    requires !step.RecvVoteRequest? && !step.RecvVoteAnswer? && !step.RecvAppend? && !step.RecvAppendAnswer?
    ensures var n, m := s.node[Actor(s, step)], Apply(s, step).node[Actor(s, step)];
            m.role == Candidate ==>
              (n.role == Candidate && n.currentTerm == m.currentTerm && n.log == m.log) || m.currentTerm > n.currentTerm
  {
  }
}
