/** Where the entries and acknowledgements found in a state came from, and what later leaders must hold. */
module ClusterOrigins {
  import opened RaftTypes
  import opened NodeRules
  import opened Cluster
  import opened ClusterElections
  import opened ClusterLogs
  import opened ClusterChoice
  import opened ClusterCommit
  import opened ClusterLeaders
  import opened ClusterSenders
  import opened ClusterSafety

  /** Step `i` of the run is node `n`, leading term `t`, accepting `command` as entry number `k`. */
  ghost predicate AcceptedAt(states: seq<State>, steps: seq<Step>, i: nat, n: NodeId, t: nat, k: nat, command: Command)
    requires |states| == |steps| + 1 && i < |steps|
  {
    && steps[i] == ClientSubmit(n, command)
    && n in states[i].node && states[i].node[n].role == Leader
    && states[i].node[n].currentTerm == t && |states[i].node[n].log| == k
  }

  /** Only a leader accepting a command adds an entry of the leader's own term. */
  lemma FirstOwn(s: State, step: Step, t: nat, k: nat)
    requires WellFormed(s) && LeadersLog(s) && LogsRooted(s) && Enabled(s, step) && Respects(s, step, VOTES)
    requires Elects(s, step) ==> s.elections[step.answer.election].term !in s.reigns
    requires !Own(s, t, k) && Own(Apply(s, step), t, k)
    ensures step.ClientSubmit? && s.node[step.n].role == Leader && s.node[step.n].currentTerm == t
    ensures k == |s.node[step.n].log| && Apply(s, step).reigns[t].log[k].command == step.command
    ensures Apply(s, step).reigns[t].leader == step.n
  {
    if Elects(s, step) {
      WinEffect(s, step);
      NoOwnEntryYet(s, Apply(s, step), s.elections[step.answer.election].term);
    } else if step.ClientSubmit? && s.node[step.n].role == Leader {
      SubmitEffect(s, step);
    } else {
      ReignsUntouched(s, step);
    }
  }

  lemma RunFirstOwn(g: Guards, states: seq<State>, steps: seq<Step>, i: nat, t: nat, k: nat)
    requires g.voteReplies && IsRun(g, states, steps) && i < |steps|
    requires !Own(states[i], t, k) && Own(states[i + 1], t, k)
    ensures AcceptedAt(states, steps, i, states[i + 1].reigns[t].leader, t, k, states[i + 1].reigns[t].log[k].command)
  {
    RunLeaderInv(g, states, steps, i);
    assert FollowsAt(g, states, steps, i);
    if Elects(states[i], steps[i]) {
      WinIsNew(states[i], steps[i]);
    }
    FirstOwn(states[i], steps[i], t, k);
  }

  lemma {:induction false} ReignEntryOrigin(g: Guards, states: seq<State>, steps: seq<Step>, j: nat, t: nat, k: nat)
    returns (i: nat)
    requires g.voteReplies && IsRun(g, states, steps) && j < |states| && Own(states[j], t, k)
    ensures i < j && AcceptedAt(states, steps, i, states[j].reigns[t].leader, t, k, states[j].reigns[t].log[k].command)
    decreases j
  {
    if j == 0 {
      assert false;
    } else if Own(states[j - 1], t, k) {
      i := ReignEntryOrigin(g, states, steps, j - 1, t, k);
      RunEvolves(g, states, steps, j - 1, j);
      assert ReignEvolves(states[j - 1].reigns[t], states[j].reigns[t]);
    } else {
      i := j - 1;
      RunFirstOwn(g, states, steps, i, t, k);
    }
  }

  lemma RunRooted(g: Guards, states: seq<State>, steps: seq<Step>, j: nat, a: NodeId, k: nat)
    requires g.voteReplies && IsRun(g, states, steps) && j < |states|
    requires a in states[j].node && k < |states[j].node[a].log|
    ensures RootedAt(states[j], states[j].node[a].log, k)
  {
    RunLeaderInv(g, states, steps, j);
  }

  /**
   * Every entry of term t, wherever it sits, was accepted from a client by the leader of term t,
   * at the same index.
   */
  lemma EntryOrigin(g: Guards, states: seq<State>, steps: seq<Step>, j: nat, a: NodeId, k: nat)
    returns (i: nat, n: NodeId)
    requires g.voteReplies && IsRun(g, states, steps) && j < |states|
    requires a in states[j].node && k < |states[j].node[a].log|
    ensures i < j && AcceptedAt(states, steps, i, n, states[j].node[a].log[k].term, k, states[j].node[a].log[k].command)
  {
    RunRooted(g, states, steps, j, a, k);
    var t := states[j].node[a].log[k].term;
    n := states[j].reigns[t].leader;
    i := ReignEntryOrigin(g, states, steps, j, t, k);
  }

  // ---------- Leader completeness ----------

  lemma StepGrowsReign(s: State, step: Step, t: nat, k: nat)
    requires WellFormed(s) && LeadersLog(s) && Enabled(s, step) && Respects(s, step, VOTES) && t in s.reigns
    requires Elects(s, step) ==> s.elections[step.answer.election].term != t
    requires t in Apply(s, step).reigns && |s.reigns[t].log| <= k < |Apply(s, step).reigns[t].log|
    ensures Apply(s, step).reigns[t].log[k].term == t
  {
    if Elects(s, step) {
      WinEffect(s, step);
    } else if step.ClientSubmit? && s.node[step.n].role == Leader {
      SubmitEffect(s, step);
    } else {
      ReignsUntouched(s, step);
    }
  }

  lemma RunStepGrowsReign(g: Guards, states: seq<State>, steps: seq<Step>, i: nat, t: nat, k: nat)
    requires g.voteReplies && IsRun(g, states, steps) && i < |steps|
    requires t in states[i].reigns && t in states[i + 1].reigns
    requires |states[i].reigns[t].log| <= k < |states[i + 1].reigns[t].log|
    ensures states[i + 1].reigns[t].log[k].term == t
  {
    RunLeaderInv(g, states, steps, i);
    assert FollowsAt(g, states, steps, i);
    if Elects(states[i], steps[i]) {
      WinIsNew(states[i], steps[i]);
    }
    StepGrowsReign(states[i], steps[i], t, k);
  }

  /** During its term a leader adds only entries of that term. */
  lemma {:induction false} ReignGrowsByOwn(g: Guards, states: seq<State>, steps: seq<Step>, i: nat, j: nat, t: nat,
                                           k: nat)
    requires g.voteReplies && IsRun(g, states, steps) && i <= j < |states| && t in states[i].reigns
    ensures t in states[j].reigns && states[i].reigns[t].log <= states[j].reigns[t].log
    ensures |states[i].reigns[t].log| <= k < |states[j].reigns[t].log| ==> states[j].reigns[t].log[k].term == t
    decreases j
  {
    RunEvolves(g, states, steps, i, j);
    assert ReignEvolves(states[i].reigns[t], states[j].reigns[t]);
    if i < j {
      ReignGrowsByOwn(g, states, steps, i, j - 1, t, k);
      RunEvolves(g, states, steps, j - 1, j);
      assert ReignEvolves(states[j - 1].reigns[t], states[j].reigns[t]);
      if |states[j - 1].reigns[t].log| <= k < |states[j].reigns[t].log| {
        RunStepGrowsReign(g, states, steps, j - 1, t, k);
      }
    }
  }

  /**
   * Leader completeness: what a node ever commits is in the log of every leader of a later term at
   * every moment it leads, whether it was elected before or after the commitment.
   */
  lemma LeaderCompleteness(states: seq<State>, steps: seq<Step>, i: nat, j: nat, a: NodeId, b: NodeId)
    requires IsRun(CURRENT, states, steps) && i < |states| && j < |states|
    requires a in states[i].node && b in states[j].node
    requires states[j].node[b].role == Leader && states[j].node[b].currentTerm > states[i].node[a].currentTerm
    ensures Agree(states[i].node[a].log, states[j].node[b].log, states[i].node[a].commitIndex + 1)
  {
    var n, u := states[i].node[a], states[j].node[b].currentTerm;
    if i <= j {
      FutureLeadersComplete(states, steps, i, j, a, b);
    } else {
      RunLeader(CURRENT, states, steps, j, b);
      EntriesBounded(CURRENT, states, steps, i, a);
      ReignGrowsByOwn(CURRENT, states, steps, j, i, u, |states[j].node[b].log|);
      RunReignsHave(states, steps, i, i, a, u);
    }
  }

  /** Right after step `i`, node `p` is in term `t`, has the first `k` entries of `log`, and answers with success. */
  ghost predicate HeldAfter(states: seq<State>, steps: seq<Step>, i: nat, p: NodeId, t: nat, log: Log, k: int)
    requires |states| == |steps| + 1 && i < |steps|
  {
    && steps[i].RecvAppend? && steps[i].append.to == p && steps[i].append.args.term == t
    && p in states[i + 1].node && states[i + 1].node[p].currentTerm == t && Agree(states[i + 1].node[p].log, log, k)
    && AppendAnswer(p, steps[i].append.args, AppendReply(t, true)) in states[i + 1].appendAnswers
  }

  lemma NewAnswer(s: State, step: Step, m: AppendAnswer)
    requires LogInv(s) && Enabled(s, step)
    requires m in Apply(s, step).appendAnswers && m !in s.appendAnswers && m.reply.success
    ensures step.RecvAppend? && step.append == AppendRequest(m.from, m.args) && m.args.term in s.reigns
    ensures m.reply == AppendReply(m.args.term, true)
    ensures m.from in Apply(s, step).node && Apply(s, step).node[m.from].currentTerm == m.args.term
    ensures Agree(Apply(s, step).node[m.from].log, s.reigns[m.args.term].log, Reach(m.args))
  {
    OnlyAppendsAnswer(s, step, m);
    AppendMatches(s, step.append);
    AppendMeaning(s.node[m.from], s.reigns[m.args.term].log, m.args);
    AppendAccepted(s.node[m.from], m.args);
  }

  lemma AppendAccepted(n: Node, a: AppendArgs)
    ensures var (after, reply) := OnAppendEntries(n, a);
            reply.success ==> reply.term == a.term == after.currentTerm
  {
  }

  lemma OnlyAppendsAnswer(s: State, step: Step, m: AppendAnswer)
    requires WellFormed(s) && Enabled(s, step) && m in Apply(s, step).appendAnswers && m !in s.appendAnswers
    ensures step.RecvAppend? && step.append == AppendRequest(m.from, m.args)
    ensures m.reply == OnAppendEntries(s.node[m.from], m.args).1
    ensures Apply(s, step).node == s.node[m.from := OnAppendEntries(s.node[m.from], m.args).0]
  {
  }

  lemma {:induction false} AnswerOrigin(g: Guards, states: seq<State>, steps: seq<Step>, j: nat, m: AppendAnswer)
    returns (i: nat)
    requires g.voteReplies && g.snapshots && IsRun(g, states, steps) && j < |states|
    requires m in states[j].appendAnswers && m.reply.success
    ensures m.args.term in states[j].reigns
    ensures i < j && HeldAfter(states, steps, i, m.from, m.args.term, states[j].reigns[m.args.term].log, Reach(m.args))
    decreases j
  {
    if j == 0 {
      assert false;
    } else {
      RunEvolves(g, states, steps, j - 1, j);
      if m in states[j - 1].appendAnswers {
        i := AnswerOrigin(g, states, steps, j - 1, m);
        assert ReignEvolves(states[j - 1].reigns[m.args.term], states[j].reigns[m.args.term]);
      } else {
        i := j - 1;
        RunNewAnswer(g, states, steps, i, m);
      }
    }
  }

  lemma RunNewAnswer(g: Guards, states: seq<State>, steps: seq<Step>, i: nat, m: AppendAnswer)
    requires g.voteReplies && g.snapshots && IsRun(g, states, steps) && i < |steps|
    requires m in states[i + 1].appendAnswers && m !in states[i].appendAnswers && m.reply.success
    ensures m.args.term in states[i + 1].reigns
    ensures HeldAfter(states, steps, i, m.from, m.args.term, states[i + 1].reigns[m.args.term].log, Reach(m.args))
  {
    RunLogInv(g, states, steps, i);
    assert FollowsAt(g, states, steps, i);
    NewAnswer(states[i], steps[i], m);
    RunEvolves(g, states, steps, i, i + 1);
    assert ReignEvolves(states[i].reigns[m.args.term], states[i + 1].reigns[m.args.term]);
  }

  lemma RunProgress(states: seq<State>, steps: seq<Step>, j: nat, n: NodeId, p: NodeId)
    requires IsRun(CURRENT, states, steps) && j < |states|
    requires n in states[j].node && states[j].node[n].role == Leader && p in Peers(states[j], n)
    ensures ProgressAt(states[j], n, p)
  {
    RunInv(states, steps, j);
  }

  /**
   * `matchIndex` is sound although late answers may move it back: if a leader notes index k or more
   * for a peer, then at some earlier moment, in this same term, the peer had exactly the leader's
   * entries 0 to k, and said so.
   */
  lemma MatchIndexSound(states: seq<State>, steps: seq<Step>, j: nat, n: NodeId, p: NodeId, k: nat) returns (i: nat)
    requires IsRun(CURRENT, states, steps) && j < |states|
    requires n in states[j].node && states[j].node[n].role == Leader && p in Peers(states[j], n)
    requires Lookup(states[j].node[n].matchIndex, p) >= k
    ensures i < j && HeldAfter(states, steps, i, p, states[j].node[n].currentTerm, states[j].node[n].log, k + 1)
  {
    var t, last := states[j].node[n].currentTerm, Lookup(states[j].node[n].matchIndex, p);
    RunProgress(states, steps, j, n, p);
    RunLeader(CURRENT, states, steps, j, n);
    var m :| m in states[j].appendAnswers && AckOf(m, p, t, last);
    i := AnswerOrigin(CURRENT, states, steps, j, m);
  }
}
