/**
 * Which entries can still become committed, and why later leaders have them.
 *
 * An index of a leader's own term is choosable as long as some majority may yet have acknowledged
 * it in that term: every member has done so, or has not moved past the term. What is choosable only
 * shrinks, so an invariant about choosable entries carries over every step.
 */
module ClusterChoice {
  import opened RaftTypes
  import opened Quorums
  import opened NodeRules
  import opened Cluster
  import opened ClusterElections
  import opened ClusterLogs

  /** Index `i` of the leader of term `t` holds an entry of that same term. */
  ghost predicate Own(s: State, t: nat, i: nat) {
    t in s.reigns && i < |s.reigns[t].log| && s.reigns[t].log[i].term == t
  }

  predicate AckOf(m: AppendAnswer, q: NodeId, t: nat, i: nat) {
    m.from == q && m.reply.success && m.args.term == t && i < Reach(m.args)
  }

  /** Node `q` is the leader of term `t` or told it, in that term, that it has its log up to `i`. */
  ghost predicate Acked(s: State, q: NodeId, t: nat, i: nat) {
    t in s.reigns && i < |s.reigns[t].log|
    && (q == s.reigns[t].leader || exists m :: m in s.appendAnswers && AckOf(m, q, t, i))
  }

  ghost predicate MayAck(s: State, q: NodeId, t: nat, i: nat) {
    Acked(s, q, t, i) || (q in s.node && s.node[q].currentTerm <= t)
  }

  ghost predicate MayCommit(s: State, q: set<NodeId>, t: nat, i: nat) {
    Majority(q, s.servers) && forall v :: v in q ==> MayAck(s, v, t, i)
  }

  ghost predicate Choosable(s: State, t: nat, i: nat) {
    exists q :: MayCommit(s, q, t, i)
  }

  ghost predicate Commits(s: State, q: set<NodeId>, t: nat, i: nat) {
    Majority(q, s.servers) && forall v :: v in q ==> Acked(s, v, t, i)
  }

  ghost predicate Committed(s: State, t: nat, i: nat) {
    Own(s, t, i) && exists q :: Commits(s, q, t, i)
  }

  predicate Covers(a: VoteArgs, t: nat, i: nat) {
    a.lastLogTerm > t || (a.lastLogTerm == t && a.lastLogIndex >= i)
  }

  /** Every later leader has what an earlier leader may have committed. */
  ghost predicate ReignsAgree(s: State) {
    forall t, u, i: nat :: t in s.reigns && u in s.reigns && t < u && Own(s, t, i) && Choosable(s, t, i)
                      ==> Agree(s.reigns[t].log, s.reigns[u].log, i + 1)
  }

  /** A node that acknowledged a choosable entry still has it. */
  ghost predicate HoldersAgree(s: State) {
    forall q, t, i: nat :: q in s.node && Own(s, t, i) && Acked(s, q, t, i) && Choosable(s, t, i)
                      ==> Agree(s.node[q].log, s.reigns[t].log, i + 1)
  }

  /** A vote given after acknowledging a choosable entry went to a log that has it. */
  ghost predicate VotersInformed(s: State) {
    forall m, t: nat, i: nat :: m in s.voteAnswers && m.reply.granted && t < m.args.term
                      && Own(s, t, i) && Acked(s, m.from, t, i) && Choosable(s, t, i)
                      ==> Covers(m.args, t, i)
  }

  /** Answers to append requests are honest about what was asked and in which term. */
  ghost predicate AnswersSound(s: State) {
    forall m :: m in s.appendAnswers ==> AnswerSound(s, m)
  }

  ghost predicate AnswerSound(s: State, m: AppendAnswer) {
    && AppendRequest(m.from, m.args) in s.appendRequests
    && m.from in s.node && m.args.term <= s.node[m.from].currentTerm
    && (m.reply.success ==> m.reply.term == m.args.term)
    && (!m.reply.success && m.reply.term == m.args.term ==> m.args.prevLogIndex >= 0)
  }

  ghost predicate ChoiceInv(s: State) {
    ReignsAgree(s) && HoldersAgree(s) && VotersInformed(s)
  }

  /** New acknowledgements come from nodes that had not moved past the term. */
  ghost predicate FreshAcks(s: State, t: State) {
    forall m :: m in t.appendAnswers && m !in s.appendAnswers && m.reply.success ==>
      m.from in s.node && s.node[m.from].currentTerm <= m.args.term
  }

  ghost predicate SameLogs(s: State, t: State) {
    forall n :: n in s.node ==> n in t.node && t.node[n].log == s.node[n].log
  }

  // ---------- What is choosable only shrinks; what is acknowledged or committed stays ----------

  lemma AckedStays(s: State, x: State, q: NodeId, t: nat, i: nat)
    requires Evolves(s, x) && Acked(s, q, t, i)
    ensures Acked(x, q, t, i)
  {
    assert ReignEvolves(s.reigns[t], x.reigns[t]);
  }

  lemma MayAckShrinks(s: State, x: State, q: NodeId, t: nat, i: nat)
    requires Evolves(s, x) && FreshAcks(s, x) && Own(s, t, i) && MayAck(x, q, t, i)
    ensures MayAck(s, q, t, i)
  {
    assert ReignEvolves(s.reigns[t], x.reigns[t]);
    if Acked(x, q, t, i) && q != x.reigns[t].leader {
      var m :| m in x.appendAnswers && AckOf(m, q, t, i);
    }
  }

  lemma ChoosableShrinks(s: State, x: State, t: nat, i: nat)
    requires Evolves(s, x) && FreshAcks(s, x) && Own(s, t, i) && Choosable(x, t, i)
    ensures Choosable(s, t, i)
  {
    var q :| MayCommit(x, q, t, i);
    forall v | v in q ensures MayAck(s, v, t, i) {
      MayAckShrinks(s, x, v, t, i);
    }
    assert MayCommit(s, q, t, i);
  }

  lemma CommittedChoosable(s: State, t: nat, i: nat)
    requires Committed(s, t, i)
    ensures Choosable(s, t, i)
  {
    var q :| Commits(s, q, t, i);
    assert MayCommit(s, q, t, i);
  }

  lemma CommittedStays(s: State, x: State, t: nat, i: nat)
    requires Evolves(s, x) && Committed(s, t, i)
    ensures Committed(x, t, i)
  {
    var q :| Commits(s, q, t, i);
    assert ReignEvolves(s.reigns[t], x.reigns[t]);
    forall v | v in q ensures Acked(x, v, t, i) {
      AckedStays(s, x, v, t, i);
    }
    assert Commits(x, q, t, i);
  }

  lemma AckerReached(s: State, q: NodeId, t: nat, i: nat)
    requires ElectionInv(s) && AnswersSound(s) && Acked(s, q, t, i)
    ensures q in s.node && s.node[q].currentTerm >= t
  {
    ReignerLeads(s, t);
    if q != s.reigns[t].leader {
      var m :| m in s.appendAnswers && AckOf(m, q, t, i);
      assert AnswerSound(s, m);
    }
  }

  // ---------- Steps that touch neither logs, nor votes, nor acknowledgements ----------

  lemma QuietKeepsChoice(s: State, x: State)
    requires ChoiceInv(s) && Evolves(s, x) && SameLogs(s, x)
    requires x.reigns == s.reigns && x.appendAnswers == s.appendAnswers
    requires forall m :: m in x.voteAnswers && m.reply.granted ==> m in s.voteAnswers
    ensures ChoiceInv(x)
  {
    forall t: nat, i: nat | Own(x, t, i) && Choosable(x, t, i) ensures Own(s, t, i) && Choosable(s, t, i) {
      ChoosableShrinks(s, x, t, i);
    }
    forall q: NodeId, t: nat, i: nat | Acked(x, q, t, i) ensures Acked(s, q, t, i) {}
  }

  // ---------- Granting a vote ----------

  lemma UpToDateCovers(a: VoteArgs, log: Log, leaderLog: Log, t: nat, i: nat)
    requires UpToDate(a, log) && Sorted(log) && Agree(log, leaderLog, i + 1) && leaderLog[i].term == t
    ensures Covers(a, t, i)
  {
    assert log[i].term == t && log[|log| - 1].term >= t;
  }

  lemma GrantKeepsChoice(s: State, step: Step)
    requires WellFormed(s) && ChoiceInv(s) && LogsSound(s)
    requires step.RecvVoteRequest? && Enabled(s, step) && Evolves(s, Apply(s, step))
    ensures ChoiceInv(Apply(s, step))
  {
    var x, m := Apply(s, step), step.request;
    assert SameLogs(s, x) && FreshAcks(s, x);
    forall t: nat, i: nat | Own(x, t, i) && Choosable(x, t, i) ensures Own(s, t, i) && Choosable(s, t, i) {
      ChoosableShrinks(s, x, t, i);
    }
    forall q: NodeId, t: nat, i: nat | Acked(x, q, t, i) ensures Acked(s, q, t, i) {}
    forall r, t: nat, i: nat | r in x.voteAnswers && r !in s.voteAnswers && r.reply.granted && t < r.args.term
                     && Own(x, t, i) && Acked(x, r.from, t, i) && Choosable(x, t, i)
      ensures Covers(r.args, t, i)
    {
      GrantedUpToDate(s.node[m.to], m.args);
      UpToDateCovers(m.args, s.node[m.to].log, s.reigns[t].log, t, i);
    }
  }

  lemma GrantedUpToDate(n: Node, a: VoteArgs)
    requires OnRequestVote(n, a).1.granted
    ensures UpToDate(a, n.log)
  {
  }

  // ---------- Handling an append request ----------

  /** Handling a request keeps what the log has in common with another log that agrees with the leader's. */
  lemma AppendKeepsCommon(n: Node, lead: Log, a: AppendArgs, other: Log, k: int)
    requires LogsMatch(n.log, lead) && CarriesFrom(a, lead)
    requires Agree(n.log, other, k) && (a.term >= n.currentTerm ==> Agree(other, lead, k))
    ensures Agree(OnAppendEntries(n, a).0.log, other, k)
  {
    AppendMeaning(n, lead, a);
    AppendLog(n, a);
  }

  /** An acknowledgement sent in this step speaks for the log that the node now has. */
  lemma NewAckHolds(s: State, step: Step, q: NodeId, t: nat, i: nat)
    requires WellFormed(s) && LogsSound(s) && AppendsSound(s)
    requires step.RecvAppend? && Enabled(s, step)
    requires Acked(Apply(s, step), q, t, i) && !Acked(s, q, t, i)
    ensures q == step.append.to && t == step.append.args.term && s.node[q].currentTerm <= t
    ensures Agree(Apply(s, step).node[q].log, s.reigns[t].log, i + 1)
  {
    var m := step.append;
    AppendMatches(s, m);
    AppendMeaning(s.node[m.to], s.reigns[m.args.term].log, m.args);
    AppendLog(s.node[m.to], m.args);
    var a :| a in Apply(s, step).appendAnswers && AckOf(a, q, t, i);
  }

  lemma AppendKeepsHolder(s: State, m: AppendRequest, t: nat, i: nat)
    requires ElectionInv(s) && ReignsAgree(s) && LogsSound(s) && AppendsSound(s) && AnswersSound(s)
    requires m in s.appendRequests && Own(s, t, i) && Acked(s, m.to, t, i) && Choosable(s, t, i)
    requires Agree(s.node[m.to].log, s.reigns[t].log, i + 1)
    ensures Agree(OnAppendEntries(s.node[m.to], m.args).0.log, s.reigns[t].log, i + 1)
  {
    var lead := s.reigns[m.args.term].log;
    AckerReached(s, m.to, t, i);
    AppendMatches(s, m);
    AppendKeepsCommon(s.node[m.to], lead, m.args, s.reigns[t].log, i + 1);
  }

  lemma AppendEffect(s: State, step: Step)
    requires WellFormed(s) && step.RecvAppend? && Enabled(s, step)
    ensures var x, m := Apply(s, step), step.append;
            && x.reigns == s.reigns && x.servers == s.servers && x.voteAnswers == s.voteAnswers
            && x.node == s.node[m.to := OnAppendEntries(s.node[m.to], m.args).0]
            && m.to in s.node && m in s.appendRequests
  {
  }

  lemma AppendKeepsHolders(s: State, step: Step)
    requires ElectionInv(s) && ReignsAgree(s) && HoldersAgree(s) && LogsSound(s) && AppendsSound(s) && AnswersSound(s)
    requires step.RecvAppend? && Enabled(s, step) && Evolves(s, Apply(s, step)) && FreshAcks(s, Apply(s, step))
    ensures HoldersAgree(Apply(s, step))
  {
    AppendEffect(s, step);
    var x, m := Apply(s, step), step.append;
    forall q, t: nat, i: nat | q in x.node && Own(x, t, i) && Acked(x, q, t, i) && Choosable(x, t, i)
      ensures Agree(x.node[q].log, x.reigns[t].log, i + 1)
    {
      HolderAfterAppend(s, step, q, t, i);
    }
  }

  lemma HolderAfterAppend(s: State, step: Step, q: NodeId, t: nat, i: nat)
    requires ElectionInv(s) && ReignsAgree(s) && HoldersAgree(s) && LogsSound(s) && AppendsSound(s) && AnswersSound(s)
    requires step.RecvAppend? && Enabled(s, step) && Evolves(s, Apply(s, step)) && FreshAcks(s, Apply(s, step))
    requires var x := Apply(s, step); q in x.node && Own(x, t, i) && Acked(x, q, t, i) && Choosable(x, t, i)
    ensures Agree(Apply(s, step).node[q].log, Apply(s, step).reigns[t].log, i + 1)
  {
    AppendEffect(s, step);
    assert Own(s, t, i);
    ChoosableShrinks(s, Apply(s, step), t, i);
    if !Acked(s, q, t, i) {
      NewAckHolds(s, step, q, t, i);
    } else if q == step.append.to {
      AppendKeepsHolder(s, step.append, t, i);
    }
  }

  lemma AppendKeepsVoters(s: State, step: Step)
    requires ElectionInv(s) && VotersInformed(s) && LogsSound(s) && AppendsSound(s)
    requires step.RecvAppend? && Enabled(s, step) && Evolves(s, Apply(s, step)) && FreshAcks(s, Apply(s, step))
    ensures VotersInformed(Apply(s, step))
  {
    var x := Apply(s, step);
    forall m, t: nat, i: nat | m in x.voteAnswers && m.reply.granted && t < m.args.term
                               && Own(x, t, i) && Acked(x, m.from, t, i) && Choosable(x, t, i)
      ensures Covers(m.args, t, i)
    {
      ChoosableShrinks(s, x, t, i);
      if !Acked(s, m.from, t, i) {
        NewAckHolds(s, step, m.from, t, i);
        VoterReached(s, m);
      }
    }
  }

  lemma AppendKeepsReigns(s: State, step: Step)
    requires WellFormed(s) && ReignsAgree(s)
    requires step.RecvAppend? && Enabled(s, step) && Evolves(s, Apply(s, step)) && FreshAcks(s, Apply(s, step))
    ensures ReignsAgree(Apply(s, step))
  {
    var x := Apply(s, step);
    forall t: nat, i: nat | Own(x, t, i) && Choosable(x, t, i) ensures Choosable(s, t, i) {
      ChoosableShrinks(s, x, t, i);
    }
  }

  // ---------- A leader accepting a command ----------

  /** Nobody but the leader has acknowledged the entry it is just adding. */
  lemma NewEntryUnacked(s: State, x: State, q: NodeId, t: nat, i: nat)
    requires AppendsSound(s) && AnswersSound(s) && t in s.reigns && t in x.reigns
    requires x.appendAnswers == s.appendAnswers && x.reigns[t].leader == s.reigns[t].leader
    requires i >= |s.reigns[t].log| && Acked(x, q, t, i)
    ensures q == s.reigns[t].leader
  {
  }

  lemma NewEntryNotChoosable(s: State, x: State, t: nat, u: nat, i: nat)
    requires ElectionInv(s) && AppendsSound(s) && AnswersSound(s) && t in s.reigns && u in s.reigns && t < u
    requires x.node.Keys == s.node.Keys && x.servers == s.servers && t in x.reigns
    requires x.appendAnswers == s.appendAnswers && x.reigns[t].leader == s.reigns[t].leader
    requires forall n :: n in s.node ==> x.node[n].currentTerm == s.node[n].currentTerm
    requires i >= |s.reigns[t].log| && s.node[s.reigns[t].leader].currentTerm == t
    ensures !Choosable(x, t, i)
  {
    if Choosable(x, t, i) {
      var q :| MayCommit(x, q, t, i);
      ElectorsReached(s, u);
      var v := CommonMember(q, Electors(s, s.reigns[u].election), s.servers);
      assert MayAck(x, v, t, i);
      NewEntryUnacked(s, x, v, t, i);
    }
  }

  /** The effect of a leader accepting a command: its log, which is its reign's log, grows by one. */
  ghost predicate Submitted(s: State, x: State, n: NodeId) {
    n in s.node && n in x.node &&
    var c := s.node[n].currentTerm;
    && c in s.reigns && s.reigns[c].leader == n && s.reigns[c].log == s.node[n].log
    && c in x.reigns && x.reigns == s.reigns[c := x.reigns[c]] && x.reigns[c].leader == n
    && |s.reigns[c].log| < |x.reigns[c].log| && IsPrefix(s.reigns[c].log, x.reigns[c].log)
    && x.node == s.node[n := x.node[n]] && x.node[n].currentTerm == c && x.node[n].log == x.reigns[c].log
    && x.servers == s.servers && x.voteAnswers == s.voteAnswers && x.appendAnswers == s.appendAnswers
  }

  lemma SubmitEffect(s: State, step: Step)
    requires WellFormed(s) && LeadersLog(s) && step.ClientSubmit? && Enabled(s, step) && s.node[step.n].role == Leader
    ensures Submitted(s, Apply(s, step), step.n)
  {
  }

  lemma SubmitKeepsReigns(s: State, x: State, n: NodeId)
    requires ElectionInv(s) && ReignsAgree(s) && AppendsSound(s) && AnswersSound(s)
    requires Submitted(s, x, n) && Evolves(s, x)
    ensures ReignsAgree(x)
  {
    forall t: nat, u: nat, i: nat | t in x.reigns && u in x.reigns && t < u && Own(x, t, i) && Choosable(x, t, i)
      ensures Agree(x.reigns[t].log, x.reigns[u].log, i + 1)
    {
      if i >= |s.reigns[t].log| {
        NewEntryNotChoosable(s, x, t, u, i);
      } else {
        LongerReignsAgree(s, x, t, u, i);
      }
    }
  }

  lemma LongerReignsAgree(s: State, x: State, t: nat, u: nat, i: nat)
    requires ReignsAgree(s) && Evolves(s, x) && FreshAcks(s, x)
    requires t in s.reigns && u in s.reigns && t < u && i < |s.reigns[t].log| && Own(x, t, i) && Choosable(x, t, i)
    ensures Agree(x.reigns[t].log, x.reigns[u].log, i + 1)
  {
    assert ReignEvolves(s.reigns[t], x.reigns[t]) && ReignEvolves(s.reigns[u], x.reigns[u]);
    ChoosableShrinks(s, x, t, i);
  }

  lemma SubmitKeepsHolders(s: State, x: State, n: NodeId)
    requires WellFormed(s) && HoldersAgree(s) && AppendsSound(s) && AnswersSound(s)
    requires Submitted(s, x, n) && Evolves(s, x)
    ensures HoldersAgree(x)
  {
    forall q, t: nat, i: nat | q in x.node && Own(x, t, i) && Acked(x, q, t, i) && Choosable(x, t, i)
      ensures Agree(x.node[q].log, x.reigns[t].log, i + 1)
    {
      if i >= |s.reigns[t].log| {
        NewEntryUnacked(s, x, q, t, i);
      } else {
        SubmitKeepsHolder(s, x, n, q, t, i);
      }
    }
  }

  lemma SubmitKeepsHolder(s: State, x: State, n: NodeId, q: NodeId, t: nat, i: nat)
    requires HoldersAgree(s) && Submitted(s, x, n) && Evolves(s, x) && q in s.node && t in s.reigns
    requires i < |s.reigns[t].log|
    requires Own(x, t, i) && Acked(x, q, t, i) && Choosable(x, t, i)
    ensures Agree(x.node[q].log, x.reigns[t].log, i + 1)
  {
    SubmitKeepsVoter(s, x, n, q, t, i);
  }

  lemma SubmitKeepsVoters(s: State, x: State, n: NodeId)
    requires ElectionInv(s) && VotersInformed(s) && AppendsSound(s) && AnswersSound(s)
    requires Submitted(s, x, n) && Evolves(s, x)
    ensures VotersInformed(x)
  {
    forall m, t: nat, i: nat | m in x.voteAnswers && m.reply.granted && t < m.args.term
                               && Own(x, t, i) && Acked(x, m.from, t, i) && Choosable(x, t, i)
      ensures Covers(m.args, t, i)
    {
      if i >= |s.reigns[t].log| {
        NewEntryUnacked(s, x, m.from, t, i);
        VoterReached(s, m);
      } else {
        SubmitKeepsVoter(s, x, n, m.from, t, i);
      }
    }
  }

  lemma SubmitKeepsVoter(s: State, x: State, n: NodeId, q: NodeId, t: nat, i: nat)
    requires Submitted(s, x, n) && Evolves(s, x) && t in s.reigns && i < |s.reigns[t].log|
    requires Own(x, t, i) && Acked(x, q, t, i) && Choosable(x, t, i)
    ensures Own(s, t, i) && Acked(s, q, t, i) && Choosable(s, t, i)
  {
    ChoosableShrinks(s, x, t, i);
  }

  // ---------- Winning an election ----------

  /** A log whose last entry covers a choosable entry has that entry. */
  lemma CoveringLogHas(s: State, log: Log, t: nat, i: nat, a: VoteArgs)
    requires ReignsAgree(s) && LogsSound(s) && Rooted(s, log)
    requires Own(s, t, i) && Choosable(s, t, i)
    requires Covers(a, t, i) && a.lastLogTerm == LastTerm(log) && a.lastLogIndex == LastIndex(log)
    ensures Agree(s.reigns[t].log, log, i + 1)
  {
    var last := |log| - 1;
    assert RootedAt(s, log, last);
    var w := log[last].term;
    if w > t {
      assert Agree(s.reigns[t].log, s.reigns[w].log, i + 1);
      assert s.reigns[w].log[i].term == t && s.reigns[w].log[last].term == w;
      assert last > i;
    }
  }

  /** Some elector of the winner acknowledged what is still choosable. */
  lemma AckingElector(x: State, u: nat, t: nat, i: nat) returns (v: NodeId)
    requires ElectionInv(x) && u in x.reigns && t < u && Choosable(x, t, i)
    ensures v in Electors(x, x.reigns[u].election) && Acked(x, v, t, i)
  {
    var q :| MayCommit(x, q, t, i);
    ElectorsReached(x, u);
    v := CommonMember(q, Electors(x, x.reigns[u].election), x.servers);
    assert MayAck(x, v, t, i);
  }

  /** The claim under which a peer voted in an election is in the network. */
  lemma VoterAnswer(s: State, e: nat, v: NodeId) returns (m: VoteAnswer)
    requires CountsSound(s) && e < |s.elections| && v in s.elections[e].voters
    ensures m in s.voteAnswers && AnswerFrom(m, v, e)
  {
    assert CountSound(s, e) && VotedIn(s, v, e);
    m :| m in s.voteAnswers && AnswerFrom(m, v, e);
  }

  lemma WinnerHas(s: State, step: Step, t: nat, i: nat)
    requires WellFormed(s) && ChoiceInv(s) && LogsSound(s) && ClaimsSound(s)
    requires Enabled(s, step) && Respects(s, step, VOTES) && Elects(s, step) && ElectionInv(Apply(s, step))
    requires Own(s, t, i) && Choosable(Apply(s, step), t, i) && Choosable(s, t, i)
    requires var u := s.elections[step.answer.election].term; t < u && u !in s.reigns
    ensures Agree(s.reigns[t].log, s.node[s.elections[step.answer.election].candidate].log, i + 1)
  {
    WinEffect(s, step);
    ElectedHas(s, Apply(s, step), step.answer.election, t, i);
  }

  lemma ElectedHas(s: State, x: State, e: nat, t: nat, i: nat)
    requires WellFormed(s) && ChoiceInv(s) && LogsSound(s) && ClaimsSound(s) && ElectionInv(x)
    requires Own(s, t, i) && Choosable(x, t, i) && Choosable(s, t, i)
    requires t in x.reigns && x.reigns[t] == s.reigns[t]
    requires e < |s.elections| && e < |x.elections| && x.voteAnswers == s.voteAnswers
    requires x.appendAnswers == s.appendAnswers
    requires var b := s.elections[e];
             && x.elections[e].candidate == b.candidate && t < b.term
             && b.term in x.reigns && x.reigns[b.term].election == e
             && b.candidate in s.node
             && s.node[b.candidate].role == Candidate && s.node[b.candidate].currentTerm == b.term
    ensures Agree(s.reigns[t].log, s.node[s.elections[e].candidate].log, i + 1)
  {
    var c := s.elections[e].candidate;
    var v := AckingElector(x, s.elections[e].term, t, i);
    AckedBefore(s, x, v, t, i);
    if v != c {
      var m := VoterAnswer(x, e, v);
      VotedLogHas(s, m, t, i);
    }
  }

  lemma AckedBefore(s: State, x: State, v: NodeId, t: nat, i: nat)
    requires x.appendAnswers == s.appendAnswers && t in s.reigns && t in x.reigns && x.reigns[t] == s.reigns[t]
    requires Acked(x, v, t, i)
    ensures Acked(s, v, t, i)
  {
  }

  /** The log of a campaigning candidate has what one of its voters acknowledged. */
  lemma VotedLogHas(s: State, m: VoteAnswer, t: nat, i: nat)
    requires WellFormed(s) && ReignsAgree(s) && VotersInformed(s) && LogsSound(s) && ClaimsSound(s)
    requires m in s.voteAnswers && m.reply.granted && t < m.args.term
    requires Own(s, t, i) && Choosable(s, t, i) && Acked(s, m.from, t, i)
    requires var b := s.elections[m.election];
             s.node[b.candidate].role == Candidate && s.node[b.candidate].currentTerm == b.term
    ensures Agree(s.reigns[t].log, s.node[s.elections[m.election].candidate].log, i + 1)
  {
    assert Covers(m.args, t, i) && ClaimSound(s, m.election, m.args);
    CoveringLogHas(s, s.node[s.elections[m.election].candidate].log, t, i, m.args);
  }

  /** A new leader has no entry of its own term yet. */
  lemma NoOwnEntryYet(s: State, x: State, u: nat)
    requires LogsRooted(s) && u !in s.reigns && u in x.reigns
    requires x.reigns[u].leader in s.node && x.reigns[u].log == s.node[x.reigns[u].leader].log
    ensures forall i: nat :: !Own(x, u, i)
  {
    var log := x.reigns[u].log;
    forall i: nat ensures !Own(x, u, i) {
      assert i < |log| ==> RootedAt(s, log, i);
    }
  }

  lemma WinKeepsReigns(s: State, step: Step)
    requires ChoiceInv(s) && LogsSound(s) && ClaimsSound(s)
    requires WellFormed(s) && Enabled(s, step) && Respects(s, step, VOTES) && Elects(s, step)
    requires Evolves(s, Apply(s, step)) && ElectionInv(Apply(s, step)) && FreshAcks(s, Apply(s, step))
    requires s.elections[step.answer.election].term !in s.reigns
    ensures ReignsAgree(Apply(s, step))
  {
    var x, u := Apply(s, step), s.elections[step.answer.election].term;
    WinEffect(s, step);
    NoOwnEntryYet(s, x, u);
    forall t: nat, w: nat, i: nat | t in x.reigns && w in x.reigns && t < w && Own(x, t, i) && Choosable(x, t, i)
      ensures Agree(x.reigns[t].log, x.reigns[w].log, i + 1)
    {
      WinAgrees(s, step, t, w, i);
    }
  }

  lemma WinAgrees(s: State, step: Step, t: nat, w: nat, i: nat)
    requires ChoiceInv(s) && LogsSound(s) && ClaimsSound(s)
    requires WellFormed(s) && Enabled(s, step) && Respects(s, step, VOTES) && Elects(s, step)
    requires Evolves(s, Apply(s, step)) && ElectionInv(Apply(s, step)) && FreshAcks(s, Apply(s, step))
    requires var u := s.elections[step.answer.election].term; u !in s.reigns && !Own(Apply(s, step), u, i)
    requires var x := Apply(s, step); t in x.reigns && w in x.reigns && t < w && Own(x, t, i) && Choosable(x, t, i)
    ensures Agree(Apply(s, step).reigns[t].log, Apply(s, step).reigns[w].log, i + 1)
  {
    WinEffect(s, step);
    assert Own(s, t, i);
    ChoosableShrinks(s, Apply(s, step), t, i);
    if w == s.elections[step.answer.election].term {
      WinnerHas(s, step, t, i);
    }
  }

  lemma WinKeepsHoldersAndVoters(s: State, x: State, u: nat)
    requires HoldersAgree(s) && VotersInformed(s)
    requires Evolves(s, x) && FreshAcks(s, x) && SameLogs(s, x)
    requires u !in s.reigns && u in x.reigns && x.reigns == s.reigns[u := x.reigns[u]]
    requires x.voteAnswers == s.voteAnswers && x.appendAnswers == s.appendAnswers
    requires forall i: nat :: !Own(x, u, i)
    ensures HoldersAgree(x) && VotersInformed(x)
  {
    forall t: nat, i: nat | Own(x, t, i) && Choosable(x, t, i) ensures Own(s, t, i) && Choosable(s, t, i) {
      assert Own(s, t, i);
      ChoosableShrinks(s, x, t, i);
    }
    forall q: NodeId, t: nat, i: nat | t != u && Acked(x, q, t, i) ensures Acked(s, q, t, i) {}
  }

  /** A win adds one reign, with the winner's log; no log and no message changes. */
  lemma WinEffect(s: State, step: Step)
    requires WellFormed(s) && Enabled(s, step) && Respects(s, step, VOTES) && Elects(s, step)
    ensures var x, e := Apply(s, step), step.answer.election;
            && x.reigns == s.reigns[s.elections[e].term := Reign(s.elections[e].candidate, e,
                 s.node[s.elections[e].candidate].log)]
            && x.voteAnswers == s.voteAnswers && x.appendAnswers == s.appendAnswers && SameLogs(s, x)
            && x.node[s.elections[e].candidate].role == Leader
  {
    var leader := WinningNode(s, step);
    WonState(s, step, leader);
  }

  lemma WinningNode(s: State, step: Step) returns (leader: Node)
    requires WellFormed(s) && Enabled(s, step) && Respects(s, step, VOTES) && Elects(s, step)
    ensures Wins(s, step.answer, leader)
  {
    var b := s.elections[step.answer.election];
    CountedNode(s.node[b.candidate], Peers(s, b.candidate), b.term, b.votesReceived, step.answer.reply);
    leader := StartLeader(s.node[b.candidate], Peers(s, b.candidate));
  }

  /** Handling the answer makes its election's candidate the given leader of that election's term. */
  ghost predicate Wins(s: State, m: VoteAnswer, leader: Node) {
    m.election < |s.elections| &&
    var b := s.elections[m.election];
    b.candidate in s.node &&
    var n := s.node[b.candidate];
    && leader.role == Leader != n.role && leader.currentTerm == b.term == n.currentTerm && leader.log == n.log
    && OnVoteReply(n, Peers(s, b.candidate), b.term, b.votesReceived, m.reply).0 == leader
  }

  lemma WonState(s: State, step: Step, leader: Node)
    requires WellFormed(s) && Enabled(s, step) && Elects(s, step) && Wins(s, step.answer, leader)
    ensures var x, e := Apply(s, step), step.answer.election;
            var b := s.elections[e];
            && x.reigns == s.reigns[b.term := Reign(b.candidate, e, leader.log)]
            && x.node == s.node[b.candidate := leader]
            && x.voteAnswers == s.voteAnswers && x.appendAnswers == s.appendAnswers
  {
  }

  lemma ReignsUntouched(s: State, step: Step)
    requires WellFormed(s) && Enabled(s, step) && !Elects(s, step)
    requires step.ClientSubmit? ==> s.node[step.n].role != Leader
    ensures Apply(s, step).reigns == s.reigns
  {
  }

  // ---------- All steps ----------

  lemma StepKeepsAnswersSound(s: State, step: Step)
    requires WellFormed(s) && AnswersSound(s) && Enabled(s, step) && Evolves(s, Apply(s, step))
    ensures AnswersSound(Apply(s, step)) && FreshAcks(s, Apply(s, step))
  {
    var x := Apply(s, step);
    forall m | m in x.appendAnswers
      ensures AnswerSound(x, m)
      ensures m !in s.appendAnswers && m.reply.success ==> m.from in s.node && s.node[m.from].currentTerm <= m.args.term
    {
      if m in s.appendAnswers {
        assert AnswerSound(s, m);
      } else {
        NewAnswerSound(s, step, m);
      }
    }
  }

  lemma NewAnswerSound(s: State, step: Step, m: AppendAnswer)
    requires WellFormed(s) && Enabled(s, step) && m in Apply(s, step).appendAnswers && m !in s.appendAnswers
    ensures AnswerSound(Apply(s, step), m)
    ensures m.reply.success ==> m.from in s.node && s.node[m.from].currentTerm <= m.args.term
  {
  }

  lemma QuietSteps(s: State, step: Step)
    requires WellFormed(s) && Enabled(s, step) && !step.RecvAppend? && !Elects(s, step)
    requires step.RecvVoteRequest? ==> !OnRequestVote(s.node[step.request.to], step.request.args).1.granted
    requires step.ClientSubmit? ==> s.node[step.n].role != Leader
    ensures SameLogs(s, Apply(s, step))
    ensures Apply(s, step).reigns == s.reigns && Apply(s, step).appendAnswers == s.appendAnswers
    ensures forall m :: m in Apply(s, step).voteAnswers && m.reply.granted ==> m in s.voteAnswers
  {
    QuietMessages(s, step);
    var x, n := Apply(s, step), Actor(s, step);
    assert x.node == s.node[n := x.node[n]];
    if step.ClientSubmit? {
      assert x.node[n].log == s.node[n].log;
    } else {
      OnlyTwoStepsWriteLogs(s, step);
    }
  }

  lemma QuietMessages(s: State, step: Step)
    requires WellFormed(s) && Enabled(s, step) && !step.RecvAppend? && !Elects(s, step)
    requires step.RecvVoteRequest? ==> !OnRequestVote(s.node[step.request.to], step.request.args).1.granted
    requires step.ClientSubmit? ==> s.node[step.n].role != Leader
    ensures Apply(s, step).reigns == s.reigns && Apply(s, step).appendAnswers == s.appendAnswers
    ensures forall m :: m in Apply(s, step).voteAnswers && m.reply.granted ==> m in s.voteAnswers
  {
  }

  lemma AppendKeepsChoice(s: State, step: Step)
    requires ElectionInv(s) && ChoiceInv(s) && LogsSound(s) && AppendsSound(s) && AnswersSound(s)
    requires step.RecvAppend? && Enabled(s, step) && Evolves(s, Apply(s, step)) && FreshAcks(s, Apply(s, step))
    ensures ChoiceInv(Apply(s, step))
  {
    AppendKeepsReigns(s, step);
    AppendKeepsHolders(s, step);
    AppendKeepsVoters(s, step);
  }

  lemma SubmitKeepsChoice(s: State, step: Step)
    requires ElectionInv(s) && ChoiceInv(s) && LeadersLog(s) && AppendsSound(s) && AnswersSound(s)
    requires step.ClientSubmit? && Enabled(s, step) && Evolves(s, Apply(s, step)) && s.node[step.n].role == Leader
    ensures ChoiceInv(Apply(s, step))
  {
    SubmitEffect(s, step);
    SubmitKeepsReigns(s, Apply(s, step), step.n);
    SubmitKeepsHolders(s, Apply(s, step), step.n);
    SubmitKeepsVoters(s, Apply(s, step), step.n);
  }

  lemma WinKeepsChoice(s: State, step: Step)
    requires ChoiceInv(s) && LogsSound(s) && ClaimsSound(s)
    requires WellFormed(s) && Enabled(s, step) && Respects(s, step, VOTES) && Elects(s, step)
    requires Evolves(s, Apply(s, step)) && ElectionInv(Apply(s, step)) && FreshAcks(s, Apply(s, step))
    requires s.elections[step.answer.election].term !in s.reigns
    ensures ChoiceInv(Apply(s, step))
  {
    WinEffect(s, step);
    WinKeepsReigns(s, step);
    var u := s.elections[step.answer.election].term;
    NoOwnEntryYet(s, Apply(s, step), u);
    WinKeepsHoldersAndVoters(s, Apply(s, step), u);
  }

  lemma StepKeepsChoice(s: State, step: Step)
    requires ElectionInv(s) && ChoiceInv(s) && LeadersLog(s) && LogsSound(s) && AppendsSound(s) && ClaimsSound(s)
    requires AnswersSound(s)
    requires Enabled(s, step) && Respects(s, step, VOTES)
    requires Evolves(s, Apply(s, step)) && ElectionInv(Apply(s, step)) && FreshAcks(s, Apply(s, step))
    ensures ChoiceInv(Apply(s, step))
  {
    if step.RecvAppend? {
      AppendKeepsChoice(s, step);
    } else if step.RecvVoteRequest? {
      GrantKeepsChoice(s, step);
    } else if step.ClientSubmit? && s.node[step.n].role == Leader {
      SubmitKeepsChoice(s, step);
    } else if Elects(s, step) {
      WinIsNew(s, step);
      WinKeepsChoice(s, step);
    } else {
      QuietSteps(s, step);
      QuietKeepsChoice(s, Apply(s, step));
    }
  }
}
