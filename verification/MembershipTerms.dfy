/**
 * Where the terms of the growing cluster come from, and what heartbeats and their replies do to
 * them, in every run, whichever captured terms are current.
 */
module MembershipTerms {
  import opened RaftTypes
  import opened Membership
  import opened MembershipSafety
  import Core = ElectionCore

  /** Some election was started in the term; term 0 is everybody's first. */
  ghost predicate Opened(s: State, t: nat) {
    t == 0 || exists e :: 0 <= e < |s.elections| && s.elections[e].term == t
  }

  ghost predicate TermsOpened(s: State) {
    && (forall n :: n in s.node ==> Opened(s, s.node[n].currentTerm))
    && (forall m :: m in s.answers ==> Opened(s, m.reply.term))
    && (forall m :: m in s.beats ==> Opened(s, m.term))
    && (forall m :: m in s.beatAnswers ==> Opened(s, m.replyTerm))
  }

  lemma OpenedStays(s: State, x: State, t: nat)
    requires Opened(s, t) && Keeps(s, x)
    ensures Opened(x, t)
  {
    if t != 0 {
      var e :| 0 <= e < |s.elections| && s.elections[e].term == t;
      assert SameElection(s.elections[e], x.elections[e]);
    }
  }

  // ---------- Nodes ----------

  lemma AskTerms(n: Node, term: nat, candidate: NodeId)
    ensures var (m, r) := OnRequestVote(n, term, candidate);
            (m.currentTerm == n.currentTerm || m.currentTerm == term) && r.term == m.currentTerm
  {
  }

  /** The answer to a heartbeat bears the larger of the two terms, which is then the node's. */
  lemma BeatTerms(n: Node, term: nat)
    ensures var (m, r) := OnHeartbeat(n, term);
            r.term == m.currentTerm == (if term > n.currentTerm then term else n.currentTerm)
            && (r.success <==> term >= n.currentTerm)
  {
  }

  // ---------- Steps ----------

  lemma NodesOpened(s: State, step: Step, n: NodeId)
    requires WellFormed(s) && TermsOpened(s) && Enabled(s, step) && n in Apply(s, step).node
    ensures Opened(Apply(s, step), Apply(s, step).node[n].currentTerm)
  {
    var x := Apply(s, step);
    StepKeeps(s, step);
    if n in s.node {
      OpenedStays(s, x, s.node[n].currentTerm);
    }
    match step
    case Timeout(k) => TimeoutOpens(s, step);
    case RecvAsk(m) =>
      AskTerms(s.node[m.to], s.elections[m.election].term, s.elections[m.election].candidate);
      assert Opened(s, s.elections[m.election].term);
      OpenedStays(s, x, s.elections[m.election].term);
    case RecvAnswer(m) => OpenedStays(s, x, m.reply.term);
    case RecvBeat(m) =>
      BeatTerms(s.node[m.to], m.term);
      OpenedStays(s, x, m.term);
    case RecvBeatAnswer(m) => OpenedStays(s, x, m.replyTerm);
    case _ =>
  }

  lemma TimeoutOpens(s: State, step: Step)
    requires WellFormed(s) && Enabled(s, step) && step.Timeout?
    ensures var x := Apply(s, step);
            && x.node[step.n].currentTerm == s.node[step.n].currentTerm + 1
            && |x.elections| == |s.elections| + 1
            && x.elections[|s.elections|].candidate == step.n
            && x.elections[|s.elections|].term == x.node[step.n].currentTerm
    ensures Opened(Apply(s, step), Apply(s, step).node[step.n].currentTerm)
  {
    var x := Apply(s, step);
    assert x.elections[|s.elections|].term == x.node[step.n].currentTerm;
  }

  /** Every message that a step sends bears the term of a node before or after it. */
  lemma NewMessages(s: State, step: Step)
    requires WellFormed(s) && Enabled(s, step)
    ensures var x := Apply(s, step);
            && (forall m :: m in x.answers && m !in s.answers ==>
                  step.RecvAsk? && m.reply.term == x.node[step.ask.to].currentTerm)
            && (forall m :: m in x.beats && m !in s.beats ==>
                  step.SendBeats? && m.term == s.node[step.n].currentTerm)
            && (forall m :: m in x.beatAnswers && m !in s.beatAnswers ==>
                  step.RecvBeat? && m.replyTerm == x.node[step.beat.to].currentTerm)
  {
    match step
    case RecvAsk(m) => AskTerms(s.node[m.to], s.elections[m.election].term, s.elections[m.election].candidate);
    case RecvBeat(m) => BeatTerms(s.node[m.to], m.term);
    case _ =>
  }

  lemma StepKeepsTermsOpened(s: State, step: Step)
    requires WellFormed(s) && TermsOpened(s) && Enabled(s, step)
    ensures TermsOpened(Apply(s, step))
  {
    var x := Apply(s, step);
    StepKeeps(s, step);
    NewMessages(s, step);
    forall n | n in x.node ensures Opened(x, x.node[n].currentTerm) {
      NodesOpened(s, step, n);
    }
    forall t | Opened(s, t) ensures Opened(x, t) {
      OpenedStays(s, x, t);
    }
  }

  // ---------- Runs ----------

  lemma {:induction false} RunTermsOpened(g: Guards, states: seq<State>, steps: seq<Step>, j: nat)
    requires IsRun(g, states, steps) && j < |states|
    ensures WellFormed(states[j]) && TermsOpened(states[j])
  {
    if j > 0 {
      RunTermsOpened(g, states, steps, j - 1);
      assert FollowsAt(g, states, steps, j - 1);
      ApplyKeepsWellFormed(states[j - 1], steps[j - 1]);
      StepKeepsTermsOpened(states[j - 1], steps[j - 1]);
    }
  }

  /** Step `i` of the run is node `c` timing out and so entering term `t`. */
  ghost predicate OpensAt(states: seq<State>, steps: seq<Step>, i: nat, c: NodeId, t: nat)
    requires |states| == |steps| + 1 && i < |steps|
  {
    steps[i] == Timeout(c) && c in states[i].node && states[i].node[c].role != Leader
    && states[i].node[c].currentTerm + 1 == t
  }

  lemma {:induction false} ElectionOrigin(g: Guards, states: seq<State>, steps: seq<Step>, j: nat, e: nat)
    returns (i: nat)
    requires IsRun(g, states, steps) && j < |states| && e < |states[j].elections|
    ensures i < j && OpensAt(states, steps, i, states[j].elections[e].candidate, states[j].elections[e].term)
    decreases j
  {
    var before: nat := j - 1;
    assert FollowsAt(g, states, steps, before);
    StepKeeps(states[before], steps[before]);
    if e < |states[before].elections| {
      i := ElectionOrigin(g, states, steps, before, e);
      assert SameElection(states[before].elections[e], states[j].elections[e]);
    } else {
      i := before;
      TimeoutOpens(states[before], steps[before]);
    }
  }

  /**
   * No term comes from nowhere: whatever term above 0 a node is ever in, some node timed out in the
   * term before and started an election in it.
   */
  lemma TermOrigin(g: Guards, states: seq<State>, steps: seq<Step>, j: nat, n: NodeId) returns (i: nat, c: NodeId)
    requires IsRun(g, states, steps) && j < |states| && n in states[j].node && states[j].node[n].currentTerm > 0
    ensures i < j && OpensAt(states, steps, i, c, states[j].node[n].currentTerm)
  {
    RunTermsOpened(g, states, steps, j);
    var t := states[j].node[n].currentTerm;
    var e :| 0 <= e < |states[j].elections| && states[j].elections[e].term == t;
    i := ElectionOrigin(g, states, steps, j, e);
    c := states[j].elections[e].candidate;
  }

  // ---------- Heartbeats ----------

  /**
   * What a leader learns from a heartbeat. The reply of a peer that was not ahead of the heartbeat's
   * term bears that term, and leaves its receiver as it is; the reply of a peer in a later term u,
   * if it is a leader's, makes it a follower of term u.
   */
  lemma HeartbeatTells(g: Guards, states: seq<State>, steps: seq<Step>, i: nat, j: nat, m: Beat)
    returns (answer: BeatAnswer)
    requires IsRun(g, states, steps) && i < j < |steps| && steps[i] == RecvBeat(m) && m.to in states[i].node
    ensures var u := states[i].node[m.to].currentTerm;
            answer == BeatAnswer(m.leader, m.term, if u > m.term then u else m.term)
    ensures answer in states[i + 1].beatAnswers
    ensures steps[j] == RecvBeatAnswer(answer) ==>
              var u := states[i].node[m.to].currentTerm;
              && m.leader in states[j].node && m.leader in states[j + 1].node
              && (u <= m.term ==> states[j + 1].node == states[j].node)
              && (u > m.term && states[j].node[m.leader].role == Leader ==>
                    var l := states[j + 1].node[m.leader]; l.role == Follower && l.currentTerm == u)
  {
    assert FollowsAt(g, states, steps, i) && FollowsAt(g, states, steps, j);
    var u := states[i].node[m.to].currentTerm;
    answer := BeatAnswer(m.leader, m.term, if u > m.term then u else m.term);
    BeatTerms(states[i].node[m.to], m.term);
  }

  /** A leader stops leading only by entering a later term, which some node's timeout has opened. */
  lemma LeaderYieldsToLater(states: seq<State>, steps: seq<Step>, j: nat, n: NodeId) returns (i: nat, c: NodeId)
    requires IsRun(CURRENT, states, steps) && j < |steps| && n in states[j].node && states[j].node[n].role == Leader
    requires ElectionsMeet(states[j], states[j].node[n].currentTerm)
    requires n in states[j + 1].node && states[j + 1].node[n].role != Leader
    ensures states[j + 1].node[n].currentTerm > states[j].node[n].currentTerm
    ensures i <= j && OpensAt(states, steps, i, c, states[j + 1].node[n].currentTerm)
  {
    var t := states[j].node[n].currentTerm;
    RunInv(states, steps, j);
    RunTermInv(states, steps, t, j, j);
    assert FollowsAt(CURRENT, states, steps, j);
    LeaderWon(states[j], n);
    LeaderStepsDown(states[j], steps[j], n);
    i, c := TermOrigin(CURRENT, states, steps, j + 1, n);
  }

  lemma LeaderStepsDown(s: State, step: Step, n: NodeId)
    requires Inv(s) && Enabled(s, step) && Current(s, step) && n in s.node && s.node[n].role == Leader
    requires WonTerm(s, n, s.node[n].currentTerm) && Core.OneWin(CoreOf(s), s.node[n].currentTerm)
    requires n in Apply(s, step).node && Apply(s, step).node[n].role != Leader
    ensures Apply(s, step).node[n].currentTerm > s.node[n].currentTerm
  {
    if step.RecvBeat? {
      assert WonTerm(s, step.beat.leader, step.beat.term);
      if step.beat.term == s.node[n].currentTerm {
        OneWinner(s, s, n, step.beat.leader, s.node[n].currentTerm);
      }
      BeatStepsDown(s, step, n);
    } else {
      OtherStepsDown(s, step, n);
    }
  }

  lemma BeatStepsDown(s: State, step: Step, n: NodeId)
    requires WellFormed(s) && Enabled(s, step) && step.RecvBeat? && n in s.node && s.node[n].role == Leader
    requires step.beat.term == s.node[n].currentTerm ==> step.beat.leader == n
    requires n in Apply(s, step).node && Apply(s, step).node[n].role != Leader
    ensures Apply(s, step).node[n].currentTerm > s.node[n].currentTerm
  {
  }

  lemma OtherStepsDown(s: State, step: Step, n: NodeId)
    requires WellFormed(s) && Enabled(s, step) && Current(s, step) && !step.RecvBeat?
    requires n in s.node && s.node[n].role == Leader
    requires n in Apply(s, step).node && Apply(s, step).node[n].role != Leader
    ensures Apply(s, step).node[n].currentTerm > s.node[n].currentTerm
  {
  }
}
