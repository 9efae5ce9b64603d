/**
 * What holds in every run in which late vote replies are not acted upon, whatever becomes of the
 * other two captured terms: one leader per term, terms that never fall, and logs that match.
 */
module ClusterLeaders {
  import opened RaftTypes
  import opened NodeRules
  import opened Cluster
  import opened ClusterElections
  import opened ClusterLogs
  import opened ClusterChoice

  ghost predicate LeaderInv(s: State) {
    ElectionInv(s) && LeadersLog(s) && ClaimsSound(s) && LogsRooted(s) && AppendsRooted(s)
  }

  lemma InitialLeaderInv(s: State)
    requires Initial(s)
    ensures LeaderInv(s)
  {
    assert CoreOf(s).votes == {} && CoreOf(s).wins == {};
  }

  lemma StepKeepsLeaderInv(s: State, step: Step)
    requires LeaderInv(s) && Enabled(s, step) && Respects(s, step, VOTES)
    ensures LeaderInv(Apply(s, step)) && Evolves(s, Apply(s, step))
  {
    StepEvolves(s, step);
    StepKeepsElectionInv(s, step);
    StepKeepsLeadersLog(s, step);
    StepKeepsClaimsSound(s, step);
    StepKeepsLogsRooted(s, step);
    StepKeepsAppendsRooted(s, step);
  }

  // ---------- Runs ----------

  lemma {:induction false} RunLeaderInv(g: Guards, states: seq<State>, steps: seq<Step>, i: nat)
    requires g.voteReplies && IsRun(g, states, steps) && i < |states|
    ensures LeaderInv(states[i])
  {
    if i == 0 {
      InitialLeaderInv(states[0]);
    } else {
      RunLeaderInv(g, states, steps, i - 1);
      assert FollowsAt(g, states, steps, i - 1);
      StepKeepsLeaderInv(states[i - 1], steps[i - 1]);
    }
  }

  lemma EvolvesOn(s: State, t: State, x: State)
    requires Evolves(s, t) && Evolves(t, x)
    ensures Evolves(s, x)
  {
    forall u | u in s.reigns ensures u in x.reigns && ReignEvolves(s.reigns[u], x.reigns[u]) {
      assert ReignEvolves(s.reigns[u], t.reigns[u]) && ReignEvolves(t.reigns[u], x.reigns[u]);
    }
  }

  lemma RunStepEvolves(g: Guards, states: seq<State>, steps: seq<Step>, i: nat)
    requires g.voteReplies && IsRun(g, states, steps) && i < |steps|
    ensures Evolves(states[i], states[i + 1])
  {
    RunLeaderInv(g, states, steps, i);
    assert FollowsAt(g, states, steps, i);
    StepKeepsLeaderInv(states[i], steps[i]);
  }

  lemma EvolvesSelf(s: State)
    requires WellFormed(s)
    ensures Evolves(s, s)
  {
  }

  lemma {:induction false} RunEvolves(g: Guards, states: seq<State>, steps: seq<Step>, i: nat, j: nat)
    requires g.voteReplies && IsRun(g, states, steps) && i <= j < |states|
    ensures Evolves(states[i], states[j])
    decreases j
  {
    if i == j {
      assert WellFormed(states[i]) by {
        RunLeaderInv(g, states, steps, i);
      }
      EvolvesSelf(states[i]);
    } else {
      RunEvolves(g, states, steps, i, j - 1);
      RunStepEvolves(g, states, steps, j - 1);
      EvolvesOn(states[i], states[j - 1], states[j]);
    }
  }

  lemma RunLeader(g: Guards, states: seq<State>, steps: seq<Step>, i: nat, n: NodeId)
    requires g.voteReplies && IsRun(g, states, steps) && i < |states|
    requires n in states[i].node && states[i].node[n].role == Leader
    ensures var m := states[i].node[n];
            m.currentTerm in states[i].reigns && states[i].reigns[m.currentTerm].leader == n
            && states[i].reigns[m.currentTerm].log == m.log
  {
    RunLeaderInv(g, states, steps, i);
  }

  // ---------- Theorems ----------

  /** Election safety: whoever leads a term, at whatever time, is the same node. */
  lemma ElectionSafety(g: Guards, states: seq<State>, steps: seq<Step>, i: nat, j: nat, a: NodeId, b: NodeId)
    requires g.voteReplies && IsRun(g, states, steps) && i <= j < |states|
    requires a in states[i].node && states[i].node[a].role == Leader
    requires b in states[j].node && states[j].node[b].role == Leader
    requires states[i].node[a].currentTerm == states[j].node[b].currentTerm
    ensures a == b
  {
    RunLeader(g, states, steps, i, a);
    RunLeader(g, states, steps, j, b);
    RunEvolves(g, states, steps, i, j);
    var t := states[i].node[a].currentTerm;
    assert ReignEvolves(states[i].reigns[t], states[j].reigns[t]);
  }

  /** A node's term never falls, and no node disappears. */
  lemma TermsNeverFall(g: Guards, states: seq<State>, steps: seq<Step>, i: nat, j: nat, n: NodeId)
    requires g.voteReplies && IsRun(g, states, steps) && i <= j < |states| && n in states[i].node
    ensures n in states[j].node && states[i].node[n].currentTerm <= states[j].node[n].currentTerm
  {
    RunEvolves(g, states, steps, i, j);
  }

  /** At the end of a run, every log of an earlier moment is rooted. */
  lemma RunLogRooted(g: Guards, states: seq<State>, steps: seq<Step>, i: nat, n: NodeId)
    requires g.voteReplies && IsRun(g, states, steps) && i < |states| && n in states[i].node
    ensures Rooted(states[|steps|], states[i].node[n].log)
  {
    RunLeaderInv(g, states, steps, i);
    RunEvolves(g, states, steps, i, |steps|);
    RootedStays(states[i], states[|steps|], states[i].node[n].log);
  }

  /** Log matching, even between the logs of different moments of a run. */
  lemma LogMatching(g: Guards, states: seq<State>, steps: seq<Step>, i: nat, j: nat, a: NodeId, b: NodeId)
    requires g.voteReplies && IsRun(g, states, steps) && i < |states| && j < |states|
    requires a in states[i].node && b in states[j].node
    ensures LogsMatch(states[i].node[a].log, states[j].node[b].log)
  {
    RunLogRooted(g, states, steps, i, a);
    RunLogRooted(g, states, steps, j, b);
    SoundLogsMatch(states[|steps|], states[i].node[a].log, states[j].node[b].log);
  }

  /**
   * Log matching between a log and a request in flight, at any two moments: up to an entry of the
   * same term they agree.
   */
  lemma RequestMatching(g: Guards, states: seq<State>, steps: seq<Step>, i: nat, n: NodeId, j: nat, m: AppendRequest,
                        e: nat)
    requires g.voteReplies && IsRun(g, states, steps) && i < |states| && j < |states|
    requires n in states[i].node && m in states[j].appendRequests && e < |m.args.entries|
    requires var log, k := states[i].node[n].log, m.args.prevLogIndex + 1 + e;
             0 <= k < |log| && log[k].term == m.args.entries[e].term
    ensures m.args.prevLogIndex >= -1 && PrevMatches(states[i].node[n].log, m.args)
    ensures forall h :: 0 <= h <= e ==> states[i].node[n].log[m.args.prevLogIndex + 1 + h] == m.args.entries[h]
  {
    var carrier := RunCarrier(g, states, steps, j, m);
    RunLogRooted(g, states, steps, i, n);
    SoundLogsMatch(states[|steps|], states[i].node[n].log, carrier);
    CarriedMatching(states[i].node[n].log, carrier, m.args, e);
  }

  /** At the end of a run, every request sent in it carries a stretch of some rooted log. */
  lemma RunCarrier(g: Guards, states: seq<State>, steps: seq<Step>, j: nat, m: AppendRequest) returns (carrier: Log)
    requires g.voteReplies && IsRun(g, states, steps) && j < |states| && m in states[j].appendRequests
    ensures Carrier(states[|steps|], m.args, carrier)
  {
    RunEvolves(g, states, steps, j, |steps|);
    RunLeaderInv(g, states, steps, |steps|);
    carrier :| Carrier(states[|steps|], m.args, carrier);
  }

  lemma CarriedMatching(log: Log, lead: Log, a: AppendArgs, j: nat)
    requires LogsMatch(log, lead) && CarriesFrom(a, lead) && j < |a.entries|
    requires a.prevLogIndex + 1 + j < |log| && log[a.prevLogIndex + 1 + j].term == a.entries[j].term
    ensures forall h :: 0 <= h <= j ==> log[a.prevLogIndex + 1 + h] == a.entries[h]
    ensures PrevMatches(log, a)
  {
    var k := a.prevLogIndex + 1 + j;
    assert log[k].term == lead[k].term;
    assert Agree(log, lead, k + 1);
  }

  /**
   * A counted vote speaks for the winning log: when a step of the run elects a leader, every peer
   * counted in that election granted its vote against the new leader's present last entry, and the
   * counter is the number of distinct voters, the leader itself included.
   */
  lemma CountedVotesSpeak(g: Guards, states: seq<State>, steps: seq<Step>, i: nat, v: NodeId)
    requires g.voteReplies && IsRun(g, states, steps) && i < |steps|
    requires WellFormed(states[i]) && Offered(states[i], steps[i]) && Elects(states[i], steps[i])
    requires var e := steps[i].answer.election; e < |states[i + 1].elections| && v in states[i + 1].elections[e].voters
    ensures var e := steps[i].answer.election;
            var c := states[i].elections[e].candidate;
            && c in states[i + 1].node && states[i + 1].node[c].role == Leader
            && (exists m :: m in states[i + 1].voteAnswers && AnswerFrom(m, v, e)
                  && m.args.lastLogIndex == LastIndex(states[i + 1].node[c].log)
                  && m.args.lastLogTerm == LastTerm(states[i + 1].node[c].log))
            && states[i + 1].elections[e].votesReceived == |Electors(states[i + 1], e)|
  {
    RunLeaderInv(g, states, steps, i);
    assert FollowsAt(g, states, steps, i);
    WinningVotesSpeak(states[i], steps[i], v);
  }

  lemma WinningVotesSpeak(s: State, step: Step, v: NodeId)
    requires WellFormed(s) && CountsSound(s) && ClaimsSound(s)
    requires Enabled(s, step) && Respects(s, step, VOTES) && Elects(s, step)
    requires v in Apply(s, step).elections[step.answer.election].voters
    ensures var e := step.answer.election;
            var c := s.elections[e].candidate;
            && (exists m :: m in s.voteAnswers && m in Apply(s, step).voteAnswers && AnswerFrom(m, v, e)
                  && m.args.lastLogIndex == LastIndex(Apply(s, step).node[c].log)
                  && m.args.lastLogTerm == LastTerm(Apply(s, step).node[c].log))
            && Apply(s, step).elections[e].votesReceived == |Electors(Apply(s, step), e)|
            && Apply(s, step).node[c].role == Leader
  {
    var x, e := Apply(s, step), step.answer.election;
    WinEffect(s, step);
    StepKeepsCounts(s, step);
    ApplyKeepsWellFormed(s, step);
    var m := VoterAnswer(x, e, v);
    assert ClaimSound(s, e, m.args);
    ElectorsCounted(x, e);
  }

  lemma ElectorsCounted(s: State, e: nat)
    requires WellFormed(s) && CountsSound(s) && e < |s.elections|
    ensures s.elections[e].votesReceived == |Electors(s, e)|
  {
    var b := s.elections[e];
    assert CountSound(s, e);
    if b.candidate in b.voters {
      var m := VoterAnswer(s, e, b.candidate);
    }
    assert |Electors(s, e)| == 1 + |b.voters|;
  }
}
