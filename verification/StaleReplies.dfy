/**
 * Which term comparisons elections without logs need, in a cluster whose membership does not
 * change: both on vote replies and on heartbeat replies.
 */
module StaleReplies {
  import opened RaftTypes
  import opened Membership
  import opened MembershipSafety
  import opened MembershipRuns
  import opened Growth

  /**
   * A run of a fully connected cluster without membership steps. Its nodes ignore heartbeat replies
   * once they lead no more, as in part 3, if `checksRole`, and else, as in part 1, do not.
   */
  ghost predicate FixedRun(g: Guards, checksRole: bool, states: seq<State>, steps: seq<Step>) {
    && IsRun(g, states, steps)
    && states[0].checksRole == checksRole && FullyConnected(states[0], states[0].node.Keys)
    && forall k :: 0 <= k < |steps| ==> !ChangesMembership(steps[k])
  }

  /** No node's term ever falls. */
  ghost predicate TermsRise(states: seq<State>) {
    forall i, j, n :: 0 <= i <= j < |states| && n in states[i].node && n in states[j].node ==>
      states[i].node[n].currentTerm <= states[j].node[n].currentTerm
  }

  /** Three servers that have just started. */
  ghost function Three(checksRole: bool): State {
    Started(checksRole, {0, 1, 2})
  }

  lemma Begin(g: Guards, checksRole: bool) returns (s: State)
    ensures s == Three(checksRole) && Arrives(g, s, s, []) && WellFormed(s) && s.checksRole == checksRole
    ensures s.elections == [] && s.wins == {} && s.node.Keys == {0, 1, 2}
    ensures s.node[0] == Node(0, NOBODY, Follower, {1, 2}) && s.node[1] == Node(0, NOBODY, Follower, {0, 2})
    ensures s.node[2] == Node(0, NOBODY, Follower, {0, 1})
  {
    s := Three(checksRole);
    Start(g, s);
    assert {0, 1, 2} - {0} == {1, 2} && {0, 1, 2} - {1} == {0, 2} && {0, 1, 2} - {2} == {0, 1};
  }

  lemma RunTo(g: Guards, checksRole: bool, s: State) returns (states: seq<State>, steps: seq<Step>)
    requires Arrives(g, Three(checksRole), s, [])
    ensures FixedRun(g, checksRole, states, steps) && states[|steps|] == s
  {
    states, steps :| ArrivesBy(g, Three(checksRole), states, steps, s, []);
    OnlyElections(steps);
  }

  lemma OnlyElections(steps: seq<Step>)
    requires MembershipOf(steps) == []
    ensures forall k :: 0 <= k < |steps| ==> !ChangesMembership(steps[k])
  {
    forall k | 0 <= k < |steps| ensures !ChangesMembership(steps[k]) {
      if ChangesMembership(steps[k]) {
        MembershipListed(steps, k);
        assert false;
      }
    }
  }

  /** A run whose last step lowers the term of node 0. */
  lemma FallingRun(g: Guards, checksRole: bool, s: State, step: Step) returns (states: seq<State>, steps: seq<Step>)
    requires Arrives(g, Three(checksRole), s, []) && !ChangesMembership(step)
    requires WellFormed(s) && Enabled(s, step) && Respects(s, step, g)
    requires 0 in s.node && 0 in Apply(s, step).node && Apply(s, step).node[0].currentTerm < s.node[0].currentTerm
    ensures FixedRun(g, checksRole, states, steps) && !TermsRise(states)
  {
    var first, t := Three(checksRole), Apply(s, step);
    var before, taken :| ArrivesBy(g, first, before, taken, s, []);
    Extend(g, first, before, taken, s, [], step, t);
    states, steps := before + [t], taken + [step];
    OnlyElections(steps);
    assert states[|taken|] == s && states[|taken| + 1] == t;
  }

  // ---------- With both comparisons ----------

  lemma CurrentIsSafe(checksRole: bool, states: seq<State>, steps: seq<Step>)
    requires FixedRun(CURRENT, checksRole, states, steps)
    ensures OneLeaderEver(states)
  {
    forall i, j, a, b, term | LeadsAt(states, i, a, term) && LeadsAt(states, j, b, term) ensures a == b {
      if i <= j {
        FixedClusterIsSafe(states, steps, i, j, a, b, states[0].node.Keys);
      } else {
        FixedClusterIsSafe(states, steps, j, i, b, a, states[0].node.Keys);
      }
    }
  }

  /** If votes are counted in their own term only, whoever won an election has led its term. */
  lemma {:induction false} WinnerLed(g: Guards, states: seq<State>, steps: seq<Step>, k: nat, w: nat) returns (i: nat)
    requires g.voteReplies && IsRun(g, states, steps) && k < |states| && w in states[k].wins
    ensures w < |states[k].elections|
    ensures LeadsAt(states, i, states[k].elections[w].candidate, states[k].elections[w].term)
  {
    var j: nat := k - 1;
    assert FollowsAt(g, states, steps, j);
    if w in states[j].wins {
      i := WinnerLed(g, states, steps, j, w);
      StepKeeps(states[j], steps[j]);
      assert SameElection(states[j].elections[w], states[k].elections[w]);
    } else {
      i := k;
    }
  }

  // ---------- Without one of them ----------

  /** Node 0 campaigns twice; the vote that node 1 gave it in term 1 is still on its way. */
  lemma LateVote(g: Guards, checksRole: bool) returns (t: State, m: Answer)
    ensures Arrives(g, Three(checksRole), t, []) && WellFormed(t) && t.node.Keys == {0, 1, 2} && |t.elections| == 2
    ensures t.elections[0] == Election(0, 1, {1, 2}, 1, {1, 2}, {})
    ensures m == Answer(1, 0, VoteReply(1, true)) && m in t.answers
    ensures t.node[0] == Node(2, 0, Candidate, {1, 2}) && t.node[1] == Node(1, 0, Follower, {0, 2})
    ensures t.node[2] == Node(0, NOBODY, Follower, {0, 1})
  {
    var first := Begin(g, checksRole);
    var s1 := Campaign(g, first, first, [], 0);
    var s2;
    s2, m := Vote(g, first, s1, [], 0, 1);
    t := Campaign(g, first, s2, [], 0);
  }

  /** A candidate of term 2 that still counts a vote of term 1 becomes a second leader of term 2. */
  lemma StaleVote(g: Guards, checksRole: bool) returns (states: seq<State>, steps: seq<Step>)
    requires !g.voteReplies
    ensures FixedRun(g, checksRole, states, steps) && !OneLeaderEver(states)
  {
    var first := Three(checksRole);
    var s, m := LateVote(g, checksRole);
    var s1 := Elect(g, first, s, [], 1, 2);
    var t := CountVote(g, first, s1, [], m);
    states, steps := RunTo(g, checksRole, t);
    assert LeadsAt(states, |steps|, 0, 2) && LeadsAt(states, |steps|, 1, 2);
  }

  /** Node 0 leads term 1. */
  lemma FirstReign(g: Guards, checksRole: bool) returns (t: State)
    ensures Arrives(g, Three(checksRole), t, []) && WellFormed(t)
    ensures t.checksRole == checksRole && t.node.Keys == {0, 1, 2} && |t.elections| == 1 && t.wins == {0}
    ensures t.node[0] == Node(1, 0, Leader, {1, 2}) && t.node[1] == Node(1, 0, Follower, {0, 2})
    ensures t.node[2] == Node(0, NOBODY, Follower, {0, 1})
  {
    var first := Begin(g, checksRole);
    t := Elect(g, first, first, [], 0, 1);
  }

  /** Its heartbeat finds node 1 campaigning in term 2, to which node 0 then yields. */
  lemma LateBeat(g: Guards, checksRole: bool) returns (t: State)
    ensures Arrives(g, Three(checksRole), t, []) && WellFormed(t)
    ensures t.checksRole == checksRole && t.node.Keys == {0, 1, 2} && |t.elections| == 2 && t.wins == {0}
    ensures t.node[0] == Node(2, 1, Follower, {1, 2}) && t.node[1] == Node(2, 1, Candidate, {0, 2})
    ensures t.node[2] == Node(0, NOBODY, Follower, {0, 1}) && BeatAnswer(0, 1, 2) in t.beatAnswers
  {
    var first := Three(checksRole);
    var s := FirstReign(g, checksRole);
    var s1 := SendBeat(g, first, s, 0, 1);
    var s2 := Campaign(g, first, s1, [], 1);
    var s3 := Refuse(g, first, s2, Beat(1, 0, 1));
    var m;
    t, m := Vote(g, first, s3, [], 1, 0);
  }

  lemma SendBeat(g: Guards, first: State, s: State, l: NodeId, p: NodeId) returns (t: State)
    requires Arrives(g, first, s, []) && WellFormed(s) && l in s.node && s.node[l].role == Leader
    requires p in s.node[l].peers
    ensures Arrives(g, first, t, []) && WellFormed(t) && t == s.(beats := t.beats)
    ensures Beat(p, l, s.node[l].currentTerm) in t.beats
  {
    Take(g, first, s, [], SendBeats(l));
    t := Apply(s, SendBeats(l));
  }

  lemma Refuse(g: Guards, first: State, s: State, m: Beat) returns (t: State)
    requires Arrives(g, first, s, []) && WellFormed(s) && m in s.beats && m.to in s.node && m.leader in s.node
    requires m.term < s.node[m.to].currentTerm
    ensures Arrives(g, first, t, []) && WellFormed(t) && t == s.(beatAnswers := t.beatAnswers)
    ensures BeatAnswer(m.leader, m.term, s.node[m.to].currentTerm) in t.beatAnswers
  {
    Take(g, first, s, [], RecvBeat(m));
    t := Apply(s, RecvBeat(m));
    assert s.node[m.to := s.node[m.to]] == s.node;
  }

  /** Node 0 leads again, in term 3, and the late reply puts it back to term 2. */
  lemma Relapse(g: Guards, checksRole: bool) returns (s: State, step: Step)
    requires !g.heartbeatReplies
    ensures Arrives(g, Three(checksRole), s, []) && WellFormed(s) && Enabled(s, step) && Respects(s, step, g)
    ensures !ChangesMembership(step) && s.node.Keys == {0, 1, 2} && s.node[0].currentTerm == 3
    ensures var t := Apply(s, step);
            && t.node.Keys == {0, 1, 2} && |t.elections| == 3 && 2 in t.wins
            && t.elections[2].candidate == 0 && t.elections[2].term == 3
            && t.node[0].currentTerm == 2 && t.node[1] == Node(2, 1, Candidate, {0, 2})
  {
    var u := LateBeat(g, checksRole);
    s := Elect(g, Three(checksRole), u, [], 0, 2);
    step := RecvBeatAnswer(BeatAnswer(0, 1, 2));
  }

  /** A leader that a late heartbeat reply puts back to an earlier term lets another node win its own. */
  lemma StaleBeat(g: Guards, checksRole: bool) returns (states: seq<State>, steps: seq<Step>)
    requires g.voteReplies && !g.heartbeatReplies
    ensures FixedRun(g, checksRole, states, steps) && !OneLeaderEver(states)
  {
    var first := Three(checksRole);
    var s, step := Relapse(g, checksRole);
    Take(g, first, s, [], step);
    var t := Elect(g, first, Apply(s, step), [], 1, 0);
    states, steps := RunTo(g, checksRole, t);
    var i := WinnerLed(g, states, steps, |steps|, 2);
    assert LeadsAt(states, i, 0, 3) && LeadsAt(states, |steps|, 1, 3);
  }

  /** One leader per term, over whole runs of a fixed cluster, needs exactly both comparisons, in either variant. */
  lemma BothExactlyNeeded(g: Guards, checksRole: bool)
    ensures (forall states, steps :: FixedRun(g, checksRole, states, steps) ==> OneLeaderEver(states))
            <==> g == CURRENT
  {
    if g == CURRENT {
      forall states, steps | FixedRun(g, checksRole, states, steps) ensures OneLeaderEver(states) {
        CurrentIsSafe(checksRole, states, steps);
      }
    } else if !g.voteReplies {
      var states, steps := StaleVote(g, checksRole);
    } else {
      var states, steps := StaleBeat(g, checksRole);
    }
  }

  // ---------- Terms ----------

  /** Node 1, in term 2, refuses the vote that node 0 asked for in term 1, and node 0 goes on to term 3. */
  lemma LateRefusal(g: Guards, checksRole: bool) returns (t: State, m: Answer)
    ensures Arrives(g, Three(checksRole), t, []) && WellFormed(t) && t.node.Keys == {0, 1, 2}
    ensures 0 < |t.elections| && t.elections[0] == Election(0, 1, {1, 2}, 1, {1, 2}, {})
    ensures m == Answer(1, 0, VoteReply(2, false)) && m in t.answers
    ensures t.node[0] == Node(3, 0, Candidate, {1, 2})
  {
    var first := Begin(g, checksRole);
    var s1 := Campaign(g, first, first, [], 0);
    var s2 := Campaign(g, first, s1, [], 1);
    var s3 := Campaign(g, first, s2, [], 1);
    var s4;
    s4, m := RefuseVote(g, first, s3, 0, 1);
    var s5 := Campaign(g, first, s4, [], 0);
    t := Campaign(g, first, s5, [], 0);
  }

  lemma RefuseVote(g: Guards, first: State, s: State, e: nat, p: NodeId) returns (t: State, m: Answer)
    requires Arrives(g, first, s, []) && WellFormed(s) && e < |s.elections| && p in s.elections[e].waiting
    requires p in s.node && s.node[p].currentTerm > s.elections[e].term
    ensures Arrives(g, first, t, []) && WellFormed(t) && t == s.(asks := t.asks, answers := s.answers + {m})
    ensures m == Answer(p, e, VoteReply(s.node[p].currentTerm, false))
  {
    Take(g, first, s, [], SendAsk(e, p));
    var u := Apply(s, SendAsk(e, p));
    Take(g, first, u, [], RecvAsk(Ask(p, e)));
    t, m := Apply(u, RecvAsk(Ask(p, e))), Answer(p, e, VoteReply(s.node[p].currentTerm, false));
    assert t.node == s.node;
  }

  /** Terms never fall in a fixed cluster exactly if both comparisons are made, in either variant. */
  lemma TermsNeverFallIff(g: Guards, checksRole: bool)
    ensures (forall states, steps :: FixedRun(g, checksRole, states, steps) ==> TermsRise(states)) <==> g == CURRENT
  {
    if g == CURRENT {
      forall states: seq<State>, steps: seq<Step> | FixedRun(g, checksRole, states, steps) ensures TermsRise(states) {
        forall i, j, n | 0 <= i <= j < |states| && n in states[i].node && n in states[j].node
          ensures states[i].node[n].currentTerm <= states[j].node[n].currentTerm
        {
          TermsNeverFall(states, steps, i, j, n);
        }
      }
    } else if !g.voteReplies {
      var s, m := LateRefusal(g, checksRole);
      var states, steps := FallingRun(g, checksRole, s, RecvAnswer(m));
    } else {
      var s, step := Relapse(g, checksRole);
      var states, steps := FallingRun(g, checksRole, s, step);
    }
  }
}
