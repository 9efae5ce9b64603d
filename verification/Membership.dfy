/**
 * Elections without logs, in a cluster whose servers may be added while it runs. With no server
 * ever added this is also the election machine of a fixed cluster.
 */
module Membership {
  import opened RaftTypes
  import Core = ElectionCore

  /** `peers` excludes the node itself. */
  datatype Node = Node(currentTerm: nat, votedFor: int, role: Role, peers: set<NodeId>)

  function BecomeFollower(n: Node, term: nat): Node {
    n.(role := Follower, currentTerm := term, votedFor := NOBODY)
  }

  function OnRequestVote(n: Node, term: nat, candidate: NodeId): (Node, VoteReply) {
    var m := if term > n.currentTerm then BecomeFollower(n, term) else n;
    if m.currentTerm == term && (m.votedFor == NOBODY || m.votedFor == candidate)
    then (m.(votedFor := candidate), VoteReply(m.currentTerm, true))
    else (m, VoteReply(m.currentTerm, false))
  }

  function OnHeartbeat(n: Node, term: nat): (Node, AppendReply) {
    var m := if term > n.currentTerm then BecomeFollower(n, term) else n;
    if term == m.currentTerm
    then (if m.role != Follower then BecomeFollower(m, term) else m, AppendReply(m.currentTerm, true))
    else (m, AppendReply(m.currentTerm, false))
  }

  function StartElection(n: Node, id: NodeId): Node {
    n.(role := Candidate, currentTerm := n.currentTerm + 1, votedFor := id)
  }

  predicate CountsVote(n: Node, saved: nat, r: VoteReply) {
    n.role == Candidate && r.term == saved && r.granted
  }

  /** Votes are counted against the size of the cluster when the election started. */
  function OnVoteReply(n: Node, saved: nat, clusterSize: nat, votes: nat, r: VoteReply): (Node, nat) {
    if n.role != Candidate then (n, votes)
    else if r.term > saved then (BecomeFollower(n, r.term), votes)
    else if !CountsVote(n, saved, r) then (n, votes)
    else (if (votes + 1) * 2 > clusterSize then n.(role := Leader) else n, votes + 1)
  }

  /**
   * The reply of an election of term `saved` is counted, or makes the node yield to a term that it
   * has already reached: the two things that only a reply of the present election may do.
   */
  predicate VoteReplyBears(n: Node, saved: nat, r: VoteReply) {
    CountsVote(n, saved, r) || (n.role == Candidate && saved < r.term <= n.currentTerm)
  }

  /** Only the dynamic variant checks that the node still leads before it looks at the reply. */
  function OnHeartbeatReply(n: Node, checksRole: bool, saved: nat, replyTerm: nat): Node {
    if (!checksRole || n.role == Leader) && replyTerm > saved then BecomeFollower(n, replyTerm) else n
  }

  /** The reply makes the node yield to a term that it has already reached. */
  predicate HeartbeatReplyBears(n: Node, checksRole: bool, saved: nat, replyTerm: nat) {
    (!checksRole || n.role == Leader) && saved < replyTerm <= n.currentTerm
  }

  function Without(ids: set<NodeId>, id: NodeId): set<NodeId> {
    ids - {id}
  }

  // ---------- The cluster ----------

  datatype Election = Election(candidate: NodeId, term: nat, peers: set<NodeId>, votesReceived: nat,
                               waiting: set<NodeId>, voters: set<NodeId>)

  datatype Ask = Ask(to: NodeId, election: nat)

  datatype Answer = Answer(from: NodeId, election: nat, reply: VoteReply)

  datatype Beat = Beat(to: NodeId, leader: NodeId, term: nat)

  datatype BeatAnswer = BeatAnswer(leader: NodeId, term: nat, replyTerm: nat)

  datatype State = State(checksRole: bool, node: map<NodeId, Node>, elections: seq<Election>,
                         asks: set<Ask>, answers: set<Answer>,
                         beats: set<Beat>, beatAnswers: set<BeatAnswer>, wins: set<nat>)

  datatype Step =
    | Timeout(n: NodeId)
    | SendAsk(election: nat, peer: NodeId)
    | RecvAsk(ask: Ask)
    | RecvAnswer(answer: Answer)
    | SendBeats(n: NodeId)
    | RecvBeat(beat: Beat)
    | RecvBeatAnswer(beatAnswer: BeatAnswer)
    | AddNode(n: NodeId, ids: set<NodeId>)
    | SetPeers(n: NodeId, ids: set<NodeId>)

  ghost predicate Initial(s: State) {
    && (forall n :: n in s.node ==> s.node[n].currentTerm == 0 && s.node[n].votedFor == NOBODY
                                    && s.node[n].role == Follower && n !in s.node[n].peers)
    && s.elections == [] && s.asks == {} && s.answers == {} && s.beats == {} && s.beatAnswers == {} && s.wins == {}
  }

  predicate WellFormed(s: State) {
    && (forall n :: n in s.node ==> n !in s.node[n].peers)
    && (forall e :: 0 <= e < |s.elections| ==> ElectionWellFormed(s, s.elections[e]))
    && (forall m :: m in s.asks ==> m.election < |s.elections| && m.to in s.elections[m.election].peers)
    && (forall m :: m in s.answers ==>
          m.election < |s.elections| && m.from in s.elections[m.election].peers && m.from in s.node)
    && (forall m :: m in s.beats ==> m.leader != m.to)
    && (forall m :: m in s.beatAnswers ==> m.leader in s.node)
  }

  predicate ElectionWellFormed(s: State, b: Election) {
    b.candidate in s.node && b.candidate !in b.peers && b.waiting <= b.peers
  }

  predicate Enabled(s: State, step: Step)
    requires WellFormed(s)
  {
    match step
    case Timeout(n) => n in s.node && s.node[n].role != Leader
    case SendAsk(e, p) => e < |s.elections| && p in s.elections[e].waiting
    case RecvAsk(m) => m in s.asks && m.to in s.node
    case RecvAnswer(m) => m in s.answers && m.from in s.elections[m.election].waiting
    case SendBeats(n) => n in s.node && s.node[n].role == Leader
    case RecvBeat(m) => m in s.beats && m.to in s.node && m.leader in s.node
    case RecvBeatAnswer(m) => m in s.beatAnswers
    case AddNode(n, ids) => n !in s.node
    case SetPeers(n, ids) => n in s.node
  }

  ghost function Apply(s: State, step: Step): State
    requires WellFormed(s) && Enabled(s, step)
  {
    match step
    case Timeout(n) =>
      var m := StartElection(s.node[n], n);
      s.(node := s.node[n := m], elections := s.elections + [Election(n, m.currentTerm, m.peers, 1, m.peers, {})])
    case SendAsk(e, p) => s.(asks := s.asks + {Ask(p, e)})
    case RecvAsk(m) =>
      var b := s.elections[m.election];
      var (n, reply) := OnRequestVote(s.node[m.to], b.term, b.candidate);
      s.(node := s.node[m.to := n], answers := s.answers + {Answer(m.to, m.election, reply)})
    case RecvAnswer(m) =>
      var b := s.elections[m.election];
      var c := b.candidate;
      var (n, votes) := OnVoteReply(s.node[c], b.term, |b.peers| + 1, b.votesReceived, m.reply);
      var counted := b.(votesReceived := votes, waiting := b.waiting - {m.from},
                        voters := if CountsVote(s.node[c], b.term, m.reply) then b.voters + {m.from} else b.voters);
      s.(node := s.node[c := n], elections := s.elections[m.election := counted],
         wins := if n.role == Leader && s.node[c].role != Leader then s.wins + {m.election} else s.wins)
    case SendBeats(n) =>
      s.(beats := s.beats + set p | p in s.node[n].peers :: Beat(p, n, s.node[n].currentTerm))
    case RecvBeat(m) =>
      var (n, reply) := OnHeartbeat(s.node[m.to], m.term);
      s.(node := s.node[m.to := n], beatAnswers := s.beatAnswers + {BeatAnswer(m.leader, m.term, reply.term)})
    case RecvBeatAnswer(m) =>
      s.(node := s.node[m.leader := OnHeartbeatReply(s.node[m.leader], s.checksRole, m.term, m.replyTerm)])
    case AddNode(n, ids) => s.(node := s.node[n := Node(0, NOBODY, Follower, Without(ids, n))])
    case SetPeers(n, ids) => s.(node := s.node[n := s.node[n].(peers := Without(ids, n))])
  }

  // ---------- Currentness ----------

  /**
   * At which of the two kinds of replies the captured term is taken to be still current whenever it
   * matters: late replies that only raise a term, or do nothing, are always handled.
   */
  datatype Guards = Guards(voteReplies: bool, heartbeatReplies: bool)

  const CURRENT := Guards(true, true)

  predicate Respects(s: State, step: Step, g: Guards)
    requires WellFormed(s) && Enabled(s, step)
  {
    match step
    case RecvAnswer(m) =>
      var b := s.elections[m.election];
      var n := s.node[b.candidate];
      g.voteReplies && VoteReplyBears(n, b.term, m.reply) ==> n.currentTerm == b.term
    case RecvBeatAnswer(m) =>
      var n := s.node[m.leader];
      g.heartbeatReplies && HeartbeatReplyBears(n, s.checksRole, m.term, m.replyTerm) ==> n.currentTerm == m.term
    case _ => true
  }

  /** Both kinds of replies are current where it matters. */
  predicate Current(s: State, step: Step)
    requires WellFormed(s) && Enabled(s, step)
  {
    Respects(s, step, CURRENT)
  }

  // ---------- Refinement of ElectionCore ----------

  function MemberOf(n: Node): Core.Member {
    Core.Member(n.currentTerm, n.votedFor, n.role)
  }

  function BallotOf(b: Election): Core.Ballot {
    Core.Ballot(b.candidate, b.term, b.peers + {b.candidate}, b.voters)
  }

  function VoteOf(s: State, m: Answer): Core.Vote
    requires m.election < |s.elections|
  {
    Core.Vote(m.from, s.elections[m.election].candidate, s.elections[m.election].term)
  }

  ghost function CoreOf(s: State): Core.State {
    Core.State(map n | n in s.node :: MemberOf(s.node[n]),
               seq(|s.elections|, e requires 0 <= e < |s.elections| => BallotOf(s.elections[e])),
               set m | m in s.answers && m.reply.granted && m.election < |s.elections| :: VoteOf(s, m),
               s.wins)
  }

  ghost function RaiseTo(s: State, n: NodeId, term: nat): Core.Step
    requires n in s.node
  {
    if term > s.node[n].currentTerm then Core.Raise(n, term) else Core.Stutter
  }

  ghost function CoreStep(s: State, step: Step): Core.Step
    requires WellFormed(s) && Enabled(s, step)
  {
    match step
    case Timeout(n) => Core.Campaign(n, s.node[n].peers + {n})
    case RecvAsk(m) =>
      var b := s.elections[m.election];
      if OnRequestVote(s.node[m.to], b.term, b.candidate).1.granted then Core.Grant(m.to, b.candidate, b.term)
      else RaiseTo(s, m.to, b.term)
    case RecvAnswer(m) =>
      var b := s.elections[m.election];
      if s.node[b.candidate].role != Candidate then Core.Stutter
      else if CountsVote(s.node[b.candidate], b.term, m.reply) then Core.Count(m.election, m.from)
      else RaiseTo(s, b.candidate, m.reply.term)
    case RecvBeat(m) =>
      if m.term == s.node[m.to].currentTerm && s.node[m.to].role != Follower then Core.Yield(m.to)
      else RaiseTo(s, m.to, m.term)
    case RecvBeatAnswer(m) =>
      if (!s.checksRole || s.node[m.leader].role == Leader) && m.replyTerm > m.term
      then RaiseTo(s, m.leader, m.replyTerm) else Core.Stutter
    case AddNode(n, _) => Core.Join(n)
    case _ => Core.Stutter
  }

  /** Each election's counter is one more than the number of its distinct voters. */
  ghost predicate CountsSound(s: State) {
    forall e :: 0 <= e < |s.elections| ==>
      s.elections[e].votesReceived == 1 + |s.elections[e].voters| && s.elections[e].voters !! s.elections[e].waiting
  }

  /** Heartbeats of a term are sent by a node that won it. */
  ghost predicate BeatsFromWinners(s: State) {
    forall m :: m in s.beats ==> WonTerm(s, m.leader, m.term)
  }

  ghost predicate WonTerm(s: State, n: NodeId, term: nat) {
    exists w :: w in s.wins && w < |s.elections| && s.elections[w].term == term && s.elections[w].candidate == n
  }

  ghost predicate Inv(s: State) {
    WellFormed(s) && Core.Inv(CoreOf(s)) && CountsSound(s) && BeatsFromWinners(s)
  }

  lemma ApplyKeepsWellFormed(s: State, step: Step)
    requires WellFormed(s) && Enabled(s, step)
    ensures WellFormed(Apply(s, step))
  {
  }

  lemma CoreStepEnabled(s: State, step: Step)
    requires Inv(s) && Enabled(s, step) && Current(s, step)
    ensures Core.Enabled(CoreOf(s), CoreStep(s, step))
  {
    match step
    case RecvAnswer(m) => AnswerEnabled(s, step);
    case RecvBeat(m) => BeatEnabled(s, step);
    case _ => OthersEnabled(s, step);
  }

  lemma AnswerEnabled(s: State, step: Step)
    requires WellFormed(s) && CountsSound(s) && Enabled(s, step) && Current(s, step) && step.RecvAnswer?
    ensures Core.Enabled(CoreOf(s), CoreStep(s, step))
  {
    var m := step.answer;
    if m.reply.granted {
      assert VoteOf(s, m) in CoreOf(s).votes;
    }
  }

  lemma BeatEnabled(s: State, step: Step)
    requires WellFormed(s) && BeatsFromWinners(s) && Enabled(s, step) && step.RecvBeat?
    ensures Core.Enabled(CoreOf(s), CoreStep(s, step))
  {
    BeatMeansBeaten(s, step.beat);
  }

  lemma OthersEnabled(s: State, step: Step)
    requires WellFormed(s) && Enabled(s, step) && !step.RecvAnswer? && !step.RecvBeat?
    ensures Core.Enabled(CoreOf(s), CoreStep(s, step))
  {
  }

  /** A heartbeat that reaches another node of its term shows that the term is won. */
  lemma BeatMeansBeaten(s: State, m: Beat)
    requires WellFormed(s) && BeatsFromWinners(s) && m in s.beats
    ensures Core.Beaten(CoreOf(s), m.to, m.term)
  {
    var c := CoreOf(s);
    assert WonTerm(s, m.leader, m.term);
    var w :| w in s.wins && w < |s.elections| && s.elections[w].term == m.term && s.elections[w].candidate == m.leader;
    assert Core.WonBy(c, w, m.term) && c.ballots[w].candidate != m.to;
  }

  /** Changing one node, and no election or answer, changes one member. */
  lemma CoreAfterNode(s: State, t: State, n: NodeId)
    requires n in t.node && t.node == s.node[n := t.node[n]]
    requires t.elections == s.elections && t.answers == s.answers && t.wins == s.wins
    ensures CoreOf(t) == CoreOf(s).(members := CoreOf(s).members[n := MemberOf(t.node[n])])
  {
    assert CoreOf(t).members == CoreOf(s).members[n := MemberOf(t.node[n])];
  }

  /** A candidate never falls behind an election of its own. */
  lemma CandidateReached(s: State, e: nat)
    requires Inv(s) && e < |s.elections|
    ensures s.elections[e].candidate in s.node && s.node[s.elections[e].candidate].currentTerm >= s.elections[e].term
  {
    var c := CoreOf(s);
    assert Core.BallotSound(c, c.ballots[e]);
  }

  lemma StepRefinesCore(s: State, step: Step)
    requires Inv(s) && Enabled(s, step) && Current(s, step)
    ensures Core.Enabled(CoreOf(s), CoreStep(s, step))
    ensures CoreOf(Apply(s, step)) == Core.Apply(CoreOf(s), CoreStep(s, step))
  {
    CoreStepEnabled(s, step);
    match step
    case Timeout(n) => TimeoutRefines(s, step);
    case RecvAsk(m) => AskRefines(s, step);
    case RecvAnswer(m) =>
      CandidateReached(s, m.election);
      AnswerRefines(s, step);
    case _ => OtherRefines(s, step);
  }

  lemma TimeoutRefines(s: State, step: Step)
    requires WellFormed(s) && step.Timeout? && Enabled(s, step) && Core.Enabled(CoreOf(s), CoreStep(s, step))
    ensures CoreOf(Apply(s, step)) == Core.Apply(CoreOf(s), CoreStep(s, step))
  {
    var d, x := CoreOf(Apply(s, step)), Core.Apply(CoreOf(s), CoreStep(s, step));
    assert d.members == x.members;
    assert d.ballots == x.ballots;
    assert d.votes == x.votes;
  }

  lemma AskRefines(s: State, step: Step)
    requires WellFormed(s) && step.RecvAsk? && Enabled(s, step) && Core.Enabled(CoreOf(s), CoreStep(s, step))
    ensures CoreOf(Apply(s, step)) == Core.Apply(CoreOf(s), CoreStep(s, step))
  {
    var m, c, d, x := step.ask, CoreOf(s), CoreOf(Apply(s, step)), Core.Apply(CoreOf(s), CoreStep(s, step));
    var b := s.elections[m.election];
    var answer := Answer(m.to, m.election, OnRequestVote(s.node[m.to], b.term, b.candidate).1);
    assert d.members == x.members;
    assert d.votes == c.votes + if answer.reply.granted then {VoteOf(s, answer)} else {};
    assert d.ballots == x.ballots;
  }

  lemma WinsIsOutvoting(s: State, e: nat, v: NodeId)
    requires WellFormed(s) && CountsSound(s) && e < |s.elections| && v in s.elections[e].waiting
    ensures var b := s.elections[e];
            ((b.votesReceived + 1) * 2 > |b.peers| + 1) == Core.Wins(BallotOf(b).(voters := b.voters + {v}))
  {
    var b := s.elections[e];
    assert ElectionWellFormed(s, b);
    assert |b.voters + {v}| == 1 + |b.voters| && |b.peers + {b.candidate}| == |b.peers| + 1;
  }

  lemma AnswerRefines(s: State, step: Step)
    requires WellFormed(s) && CountsSound(s) && step.RecvAnswer? && Enabled(s, step) && Current(s, step)
    requires var b := s.elections[step.answer.election]; b.term <= s.node[b.candidate].currentTerm
    requires Core.Enabled(CoreOf(s), CoreStep(s, step))
    ensures CoreOf(Apply(s, step)) == Core.Apply(CoreOf(s), CoreStep(s, step))
  {
    WinsIsOutvoting(s, step.answer.election, step.answer.from);
    var d, x := CoreOf(Apply(s, step)), Core.Apply(CoreOf(s), CoreStep(s, step));
    assert d.members == x.members;
    assert d.ballots == x.ballots;
    assert d.votes == x.votes;
  }

  lemma OtherRefines(s: State, step: Step)
    requires WellFormed(s) && Enabled(s, step) && Current(s, step) && Core.Enabled(CoreOf(s), CoreStep(s, step))
    requires !step.Timeout? && !step.RecvAsk? && !step.RecvAnswer?
    ensures CoreOf(Apply(s, step)) == Core.Apply(CoreOf(s), CoreStep(s, step))
  {
    var t, c := Apply(s, step), CoreOf(s);
    if step.SendAsk? || step.SendBeats? {
      assert CoreOf(t) == c;
    } else {
      var n := Touched(step);
      CoreAfterNode(s, t, n);
      assert n in s.node ==> c.members[n := c.members[n]] == c.members;
    }
  }

  function Touched(step: Step): NodeId
    requires step.RecvBeat? || step.RecvBeatAnswer? || step.AddNode? || step.SetPeers?
  {
    match step
    case RecvBeat(m) => m.to
    case RecvBeatAnswer(m) => m.leader
    case AddNode(n, _) => n
    case SetPeers(n, _) => n
  }

  lemma StepKeepsCounts(s: State, step: Step)
    requires WellFormed(s) && CountsSound(s) && Enabled(s, step)
    ensures CountsSound(Apply(s, step))
  {
  }

  lemma WonStays(s: State, step: Step, n: NodeId, term: nat)
    requires WellFormed(s) && Enabled(s, step) && WonTerm(s, n, term)
    ensures WonTerm(Apply(s, step), n, term)
  {
    var w :| w in s.wins && w < |s.elections| && s.elections[w].term == term && s.elections[w].candidate == n;
    var t := Apply(s, step);
    assert w in t.wins && w < |t.elections| && t.elections[w].term == term && t.elections[w].candidate == n;
  }

  lemma LeaderWon(s: State, n: NodeId)
    requires Inv(s) && n in s.node && s.node[n].role == Leader
    ensures WonTerm(s, n, s.node[n].currentTerm)
  {
    var c := CoreOf(s);
    assert Core.Led(c, n);
    var w :| w in c.wins && Core.WonBy(c, w, c.members[n].term) && c.ballots[w].candidate == n;
    assert w < |s.elections| && s.elections[w].candidate == n;
  }

  lemma StepKeepsInv(s: State, step: Step)
    requires Inv(s) && Enabled(s, step) && Current(s, step)
    ensures Inv(Apply(s, step))
  {
    ApplyKeepsWellFormed(s, step);
    StepRefinesCore(s, step);
    Core.StepKeepsInv(CoreOf(s), CoreStep(s, step));
    StepKeepsCounts(s, step);
    forall m | m in Apply(s, step).beats ensures WonTerm(Apply(s, step), m.leader, m.term) {
      if m !in s.beats {
        LeaderWon(s, step.n);
      }
      WonStays(s, step, m.leader, m.term);
    }
  }
}
