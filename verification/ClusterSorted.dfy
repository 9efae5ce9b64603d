/**
 * Terms never fall along any log, even if nodes that deposed leaders write to have logs that are
 * ahead of their own terms: such a node cannot be elected before it has caught up.
 */
module ClusterSorted {
  import opened RaftTypes
  import opened Quorums
  import opened NodeRules
  import opened Cluster
  import opened ClusterElections
  import opened ClusterLogs
  import opened ClusterChoice
  import opened ClusterLeaders

  /** Every log is sorted, and no leader's log is ahead of the leader's term. */
  ghost predicate LogsSorted(s: State) {
    && (forall n :: n in s.node ==> Sorted(s.node[n].log))
    && (forall t :: t in s.reigns ==> Ordered(s.reigns[t].log, t))
  }

  ghost predicate SortedCarrier(s: State, a: AppendArgs, log: Log) {
    Carrier(s, a, log) && Sorted(log)
  }

  ghost predicate AppendsSorted(s: State) {
    forall m :: m in s.appendRequests ==> exists log :: SortedCarrier(s, m.args, log)
  }

  /** The candidate of election `e` is still campaigning in it. */
  predicate Campaigning(s: State, e: nat) {
    e < |s.elections| && s.elections[e].candidate in s.node
    && s.node[s.elections[e].candidate].role == Candidate
    && s.node[s.elections[e].candidate].currentTerm == s.elections[e].term
  }

  predicate Mentions(log: Log, t: nat) {
    exists i :: 0 <= i < |log| && log[i].term == t
  }

  /** The candidate's log has an entry of term `t`, later than that of its election. */
  predicate IsAhead(s: State, e: nat, t: nat)
    requires Campaigning(s, e)
  {
    t > s.elections[e].term && Mentions(s.node[s.elections[e].candidate].log, t)
  }

  /** Of the electors of the leader of term `t`, none campaigned or voted in election `e`. */
  ghost predicate Blocked(s: State, e: nat, t: nat) {
    && e < |s.elections| && t in s.reigns && s.reigns[t].election < |s.elections|
    && s.elections[e].candidate !in Electors(s, s.reigns[t].election)
    && forall m :: m in s.voteAnswers && m.election == e && m.reply.granted ==>
         m.from !in Electors(s, s.reigns[t].election)
  }

  /** A candidate whose log has an entry of a later term is blocked by the electors of that term's leader. */
  ghost predicate AheadBlocked(s: State) {
    forall e: nat, t: nat :: Campaigning(s, e) && IsAhead(s, e, t) ==> Blocked(s, e, t)
  }

  ghost predicate SortedInv(s: State) {
    LeaderInv(s) && LogsSorted(s) && AppendsSorted(s) && AheadBlocked(s)
  }

  // ---------- Who can be an elector ----------

  lemma BelowNoElector(s: State, v: NodeId, t: nat)
    requires ElectionInv(s) && t in s.reigns && v in s.node && s.node[v].currentTerm < t
    ensures s.reigns[t].election < |s.elections| && v !in Electors(s, s.reigns[t].election)
  {
    ElectorsReached(s, t);
  }

  /** Once an election is won, no vote in it is counted. */
  lemma WonElectorsStay(s: State, step: Step, t: nat)
    requires ElectionInv(s) && Enabled(s, step) && Respects(s, step, VOTES) && t in s.reigns
    ensures var e := s.reigns[t].election;
            e < |s.elections| && e < |Apply(s, step).elections| && Electors(Apply(s, step), e) == Electors(s, e)
  {
    var e := s.reigns[t].election;
    ReignerLeads(s, t);
    if !(step.RecvVoteAnswer? && step.answer.election == e) {
      OtherElections(s, step, e);
    }
  }

  lemma MentionedReigns(s: State, log: Log, t: nat)
    requires Rooted(s, log) && Mentions(log, t)
    ensures t in s.reigns
  {
    var i :| 0 <= i < |log| && log[i].term == t;
    assert RootedAt(s, log, i);
  }

  // ---------- Blocked candidates ----------

  lemma StepKeepsAheadBlocked(s: State, step: Step)
    requires SortedInv(s) && Enabled(s, step) && Respects(s, step, VOTES)
    requires LeaderInv(Apply(s, step)) && Evolves(s, Apply(s, step))
    ensures AheadBlocked(Apply(s, step))
  {
    var x := Apply(s, step);
    forall e: nat, t: nat | Campaigning(x, e) && IsAhead(x, e, t) ensures Blocked(x, e, t) {
      if e < |s.elections| {
        OldCampaign(s, step, e, t);
        BlockedStays(s, step, e, t);
      } else {
        NewCampaign(s, step, e, t);
      }
    }
  }

  /** A candidate that is still campaigning was so before, with the same log. */
  lemma OldCampaign(s: State, step: Step, e: nat, t: nat)
    requires ElectionInv(s) && AheadBlocked(s) && Enabled(s, step) && Evolves(s, Apply(s, step)) && e < |s.elections|
    requires Campaigning(Apply(s, step), e) && IsAhead(Apply(s, step), e, t)
    ensures Campaigning(s, e) && Blocked(s, e, t)
  {
    CandidateReached(s, e);
    CandidateKeepsLog(s, step, s.elections[e].candidate);
  }

  lemma BlockedStays(s: State, step: Step, e: nat, t: nat)
    requires ElectionInv(s) && Enabled(s, step) && Respects(s, step, VOTES)
    requires ElectionInv(Apply(s, step)) && Evolves(s, Apply(s, step))
    requires Blocked(s, e, t) && s.elections[e].term < t
    ensures Blocked(Apply(s, step), e, t)
  {
    var x := Apply(s, step);
    WonElectorsStay(s, step, t);
    assert ReignEvolves(s.reigns[t], x.reigns[t]);
    forall m | m in x.voteAnswers && m.election == e && m.reply.granted
      ensures m.from !in Electors(x, x.reigns[t].election)
    {
      if m !in s.voteAnswers {
        NewVoteBelow(s, step, m);
        BelowNoElector(x, m.from, t);
      }
    }
  }

  /** A node that votes is then in the term of the election. */
  lemma NewVoteBelow(s: State, step: Step, m: VoteAnswer)
    requires WellFormed(s) && Enabled(s, step)
    requires m in Apply(s, step).voteAnswers && m !in s.voteAnswers && m.reply.granted
    ensures m.election < |s.elections| && m.from in Apply(s, step).node
    ensures Apply(s, step).node[m.from].currentTerm == s.elections[m.election].term
  {
  }

  lemma NewCampaign(s: State, step: Step, e: nat, t: nat)
    requires WellFormed(s) && Enabled(s, step) && LeaderInv(Apply(s, step)) && e >= |s.elections|
    requires Campaigning(Apply(s, step), e) && IsAhead(Apply(s, step), e, t)
    ensures Blocked(Apply(s, step), e, t)
  {
    var x := Apply(s, step);
    MentionedReigns(x, x.node[x.elections[e].candidate].log, t);
    BelowNoElector(x, x.elections[e].candidate, t);
    FirstUnanswered(s, step);
  }

  lemma FirstUnanswered(s: State, step: Step)
    requires WellFormed(s) && Enabled(s, step) && |Apply(s, step).elections| > |s.elections|
    ensures |Apply(s, step).elections| == |s.elections| + 1
    ensures forall m :: m in Apply(s, step).voteAnswers ==> m.election < |s.elections|
  {
  }

  // ---------- Winners ----------

  /** A candidate that wins has no entry of a later term. */
  lemma WinnerNotAhead(s: State, step: Step, t: nat)
    requires ElectionInv(s) && AheadBlocked(s)
    requires Enabled(s, step) && Respects(s, step, VOTES) && Elects(s, step)
    requires ElectionInv(Apply(s, step)) && Evolves(s, Apply(s, step))
    ensures Campaigning(s, step.answer.election) && !IsAhead(s, step.answer.election, t)
  {
    var x, e := Apply(s, step), step.answer.election;
    WinEffect(s, step);
    if IsAhead(s, e, t) {
      WonElectorsStay(s, step, t);
      assert ReignEvolves(s.reigns[t], x.reigns[t]);
      ElectorsReached(x, t);
      ElectorsReached(x, s.elections[e].term);
      var v := CommonMember(Electors(x, e), Electors(x, x.reigns[t].election), x.servers);
      if v != x.elections[e].candidate {
        var m := VoterAnswer(x, e, v);
      }
      assert false;
    }
  }

  lemma WinnerOrdered(s: State, step: Step)
    requires ElectionInv(s) && AheadBlocked(s) && LogsSorted(s)
    requires Enabled(s, step) && Respects(s, step, VOTES) && Elects(s, step)
    requires ElectionInv(Apply(s, step)) && Evolves(s, Apply(s, step))
    ensures var b := s.elections[step.answer.election];
            b.candidate in s.node && Ordered(s.node[b.candidate].log, b.term)
  {
    var b := s.elections[step.answer.election];
    var log := s.node[b.candidate].log;
    forall i | 0 <= i < |log| ensures log[i].term <= b.term {
      assert Mentions(log, log[i].term);
      WinnerNotAhead(s, step, log[i].term);
    }
  }

  // ---------- Steps ----------

  lemma StepKeepsNodeSorted(s: State, step: Step)
    requires WellFormed(s) && LogsRooted(s) && LeadersLog(s) && LogsSorted(s) && AppendsSorted(s) && Enabled(s, step)
    ensures Sorted(Apply(s, step).node[Actor(s, step)].log)
  {
    if step.RecvAppend? {
      AppendKeepsSorted(s, step.append);
    } else if step.ClientSubmit? {
      if s.node[step.n].role == Leader {
        SubmitExtends(s, step);
      }
    } else {
      OnlyTwoStepsWriteLogs(s, step);
    }
  }

  lemma AppendKeepsSorted(s: State, m: AppendRequest)
    requires WellFormed(s) && LogsRooted(s) && LogsSorted(s) && AppendsSorted(s) && m in s.appendRequests
    ensures Sorted(OnAppendEntries(s.node[m.to], m.args).0.log)
  {
    var lead :| SortedCarrier(s, m.args, lead);
    SoundLogsMatch(s, s.node[m.to].log, lead);
    AppendMeaning(s.node[m.to], lead, m.args);
  }

  lemma WinKeepsSorted(s: State, step: Step)
    requires ElectionInv(s) && LogsSorted(s) && AheadBlocked(s)
    requires Enabled(s, step) && Respects(s, step, VOTES) && Elects(s, step)
    requires ElectionInv(Apply(s, step)) && Evolves(s, Apply(s, step))
    ensures LogsSorted(Apply(s, step))
  {
    WinEffect(s, step);
    WinnerOrdered(s, step);
    var b := s.elections[step.answer.election];
    WonSorted(s, Apply(s, step), b.term, Reign(b.candidate, step.answer.election, s.node[b.candidate].log));
  }

  lemma WonSorted(s: State, x: State, u: nat, r: Reign)
    requires LogsSorted(s) && SameLogs(s, x) && x.node.Keys == s.node.Keys
    requires x.reigns == s.reigns[u := r] && Ordered(r.log, u)
    ensures LogsSorted(x)
  {
  }

  lemma SubmitKeepsReigns(s: State, step: Step)
    requires WellFormed(s) && LeadersLog(s) && LogsSorted(s)
    requires step.ClientSubmit? && Enabled(s, step) && s.node[step.n].role == Leader
    ensures forall u :: u in Apply(s, step).reigns ==> Ordered(Apply(s, step).reigns[u].log, u)
  {
    SubmitEffect(s, step);
    SubmitExtends(s, step);
  }

  lemma StepKeepsLogsSorted(s: State, step: Step)
    requires SortedInv(s) && Enabled(s, step) && Respects(s, step, VOTES)
    requires ElectionInv(Apply(s, step)) && Evolves(s, Apply(s, step))
    ensures LogsSorted(Apply(s, step))
  {
    if Elects(s, step) {
      WinKeepsSorted(s, step);
    } else {
      StepKeepsNodeSorted(s, step);
      ActorFrame(s, step);
      if step.ClientSubmit? && s.node[step.n].role == Leader {
        SubmitKeepsReigns(s, step);
      } else {
        ReignsUntouched(s, step);
      }
    }
  }

  lemma StepKeepsAppendsSorted(s: State, step: Step)
    requires SortedInv(s) && Enabled(s, step) && Evolves(s, Apply(s, step))
    ensures AppendsSorted(Apply(s, step))
  {
    var x := Apply(s, step);
    OnlySendingAppends(s, step);
    forall m | m in x.appendRequests ensures exists log :: SortedCarrier(x, m.args, log) {
      var log;
      if m in s.appendRequests {
        log :| SortedCarrier(s, m.args, log);
      } else {
        log := s.node[step.round.leader].log;
        SnapshotCarries(s.node[step.round.leader], step.round.leader, step.peer, step.round.term);
      }
      RootedStays(s, x, log);
      assert SortedCarrier(x, m.args, log);
    }
  }

  lemma StepKeepsSortedInv(s: State, step: Step)
    requires SortedInv(s) && Enabled(s, step) && Respects(s, step, VOTES)
    ensures SortedInv(Apply(s, step))
  {
    StepKeepsLeaderInv(s, step);
    StepKeepsLogsSorted(s, step);
    StepKeepsAppendsSorted(s, step);
    StepKeepsAheadBlocked(s, step);
  }

  // ---------- Runs ----------

  lemma {:induction false} RunSortedInv(g: Guards, states: seq<State>, steps: seq<Step>, i: nat)
    requires g.voteReplies && IsRun(g, states, steps) && i < |states|
    ensures SortedInv(states[i])
  {
    if i == 0 {
      InitialLeaderInv(states[0]);
    } else {
      RunSortedInv(g, states, steps, i - 1);
      assert FollowsAt(g, states, steps, i - 1);
      StepKeepsSortedInv(states[i - 1], steps[i - 1]);
    }
  }

  /** Terms never fall along a log, and a leader's log is never ahead of its term. */
  lemma TermsSorted(g: Guards, states: seq<State>, steps: seq<Step>, i: nat, n: NodeId)
    requires g.voteReplies && IsRun(g, states, steps) && i < |states| && n in states[i].node
    ensures var m := states[i].node[n];
            Sorted(m.log) && (m.role == Leader ==> Bounded(m.log, m.currentTerm))
  {
    RunSortedInv(g, states, steps, i);
  }
}
