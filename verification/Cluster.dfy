/**
 * The whole cluster as a transition system. Every critical section of a node is one step; messages
 * stay in the network once sent, so that they may be delivered late, in any order, again, or never.
 */
module Cluster {
  import opened RaftTypes
  import opened NodeRules

  datatype VoteRequest = VoteRequest(to: NodeId, election: nat, args: VoteArgs)

  datatype VoteAnswer = VoteAnswer(from: NodeId, election: nat, args: VoteArgs, reply: VoteReply)

  datatype AppendRequest = AppendRequest(to: NodeId, args: AppendArgs)

  datatype AppendAnswer = AppendAnswer(from: NodeId, args: AppendArgs, reply: AppendReply)

  /**
   * The variables captured by the goroutines of one election: its term and the votes received.
   * `waiting` are the peers whose goroutine has not handled a reply yet; `voters` records whose
   * votes were counted.
   */
  datatype Election = Election(candidate: NodeId, term: nat, votesReceived: nat, waiting: set<NodeId>,
       voters: set<NodeId>)

  /** A round of heartbeats begun by a leader, with the term its goroutines captured. */
  datatype Round = Round(leader: NodeId, term: nat)

  /** History: who became leader of a term, through which election, and the log it has had since. */
  datatype Reign = Reign(leader: NodeId, election: nat, log: Log)

  datatype State = State(servers: set<NodeId>, node: map<NodeId, Node>, elections: seq<Election>, rounds: set<Round>,
                         voteRequests: set<VoteRequest>, voteAnswers: set<VoteAnswer>,
                         appendRequests: set<AppendRequest>, appendAnswers: set<AppendAnswer>,
                         reigns: map<nat, Reign>)

  datatype Step =
    | Timeout(n: NodeId)
    | SendVoteRequest(election: nat, peer: NodeId)
    | RecvVoteRequest(request: VoteRequest)
    | RecvVoteAnswer(answer: VoteAnswer)
    | StartRound(n: NodeId)
    | SendAppend(round: Round, peer: NodeId)
    | RecvAppend(append: AppendRequest)
    | RecvAppendAnswer(ack: AppendAnswer)
    | ClientSubmit(n: NodeId, command: Command)
    | TakeReady(n: NodeId)
    | SendReady(n: NodeId)
    | OverwriteReady(n: NodeId)

  ghost predicate Initial(s: State) {
    && s.node.Keys == s.servers
    && (forall n :: n in s.servers ==> s.node[n] == FRESH)
    && s.elections == [] && s.rounds == {} && s.reigns == map[]
    && s.voteRequests == {} && s.voteAnswers == {} && s.appendRequests == {} && s.appendAnswers == {}
  }

  function Peers(s: State, n: NodeId): set<NodeId> {
    s.servers - {n}
  }

  predicate WellFormed(s: State) {
    && s.node.Keys == s.servers
    && ElectionsWellFormed(s) && VotesWellFormed(s) && AppendsWellFormed(s)
  }

  predicate ElectionsWellFormed(s: State) {
    && (forall e :: 0 <= e < |s.elections| ==>
          s.elections[e].candidate in s.servers && s.elections[e].waiting <= Peers(s, s.elections[e].candidate))
    && (forall r :: r in s.rounds ==> r.leader in s.servers)
  }

  predicate VotesWellFormed(s: State) {
    && (forall m :: m in s.voteRequests ==> BelongsTo(s, m.to, m.election, m.args))
    && (forall m :: m in s.voteAnswers ==> BelongsTo(s, m.from, m.election, m.args))
  }

  /** The request to `peer` belongs to election `e`. */
  predicate BelongsTo(s: State, peer: NodeId, e: nat, a: VoteArgs) {
    && e < |s.elections| && peer in Peers(s, s.elections[e].candidate)
    && a.candidateId == s.elections[e].candidate && a.term == s.elections[e].term
  }

  predicate AppendsWellFormed(s: State) {
    && (forall m :: m in s.appendRequests ==> m.args.leaderId in s.servers && m.to in Peers(s, m.args.leaderId))
    && (forall m :: m in s.appendAnswers ==> m.args.leaderId in s.servers && m.from in Peers(s, m.args.leaderId))
  }

  /**
   * When a step can be taken. The range conditions are those under which the Go code does not
   * panic (the commit loop indexes from `commitIndex + 1` up to the end of the log); `IndexSafety`
   * shows that they hold by themselves.
   */
  predicate Enabled(s: State, step: Step)
    requires WellFormed(s)
  {
    Offered(s, step) && InRange(s, step)
  }

  predicate Offered(s: State, step: Step)
    requires WellFormed(s)
  {
    match step
    case Timeout(n) => n in s.servers && s.node[n].role != Leader
    case SendVoteRequest(e, p) => e < |s.elections| && p in s.elections[e].waiting
    case RecvVoteRequest(m) => m in s.voteRequests
    case RecvVoteAnswer(m) => m in s.voteAnswers && m.from in s.elections[m.election].waiting
    case StartRound(n) => n in s.servers && s.node[n].role == Leader
    case SendAppend(r, p) => r in s.rounds && p in Peers(s, r.leader)
    case RecvAppend(m) => m in s.appendRequests
    case RecvAppendAnswer(m) => m in s.appendAnswers
    case ClientSubmit(n, c) => n in s.servers
    case TakeReady(n) => n in s.servers && s.node[n].pending > 0 && s.node[n].outbox == []
    case SendReady(n) => n in s.servers && s.node[n].outbox != []
    case OverwriteReady(n) => n in s.servers
  }

  predicate InRange(s: State, step: Step)
    requires WellFormed(s) && Offered(s, step)
  {
    match step
    case SendAppend(r, p) => NextInRange(s.node[r.leader], p)
    case RecvAppend(m) => m.args.prevLogIndex >= -1
    case RecvAppendAnswer(m) => s.node[m.args.leaderId].commitIndex >= -1
    case TakeReady(n) => ApplyInRange(s.node[n])
    case OverwriteReady(n) => OutboxInRange(s.node[n])
    case _ => true
  }

  ghost function Apply(s: State, step: Step): State
    requires WellFormed(s) && Enabled(s, step)
  {
    match step
    case Timeout(n) =>
      var m := StartElection(s.node[n], n);
      s.(node := s.node[n := m], elections := s.elections + [Election(n, m.currentTerm, 1, Peers(s, n), {})])
    case SendVoteRequest(e, p) =>
      var b := s.elections[e];
      var log := s.node[b.candidate].log;
      s.(voteRequests := s.voteRequests
           + {VoteRequest(p, e, VoteArgs(b.term, b.candidate, LastIndex(log), LastTerm(log)))})
    case RecvVoteRequest(m) =>
      var (n, reply) := OnRequestVote(s.node[m.to], m.args);
      s.(node := s.node[m.to := n], voteAnswers := s.voteAnswers + {VoteAnswer(m.to, m.election, m.args, reply)})
    case RecvVoteAnswer(m) =>
      var b := s.elections[m.election];
      var c := b.candidate;
      var (n, votes) := OnVoteReply(s.node[c], Peers(s, c), b.term, b.votesReceived, m.reply);
      var counted := b.(votesReceived := votes, waiting := b.waiting - {m.from},
                        voters := if CountsVote(s.node[c], b.term, m.reply) then b.voters + {m.from} else b.voters);
      s.(node := s.node[c := n],
         elections := s.elections[m.election := counted],
         reigns := if n.role == Leader && s.node[c].role != Leader
                   then s.reigns[n.currentTerm := Reign(c, m.election, n.log)] else s.reigns)
    case StartRound(n) => s.(rounds := s.rounds + {Round(n, s.node[n].currentTerm)})
    case SendAppend(r, p) =>
      s.(appendRequests := s.appendRequests + {AppendRequest(p, Snapshot(s.node[r.leader], r.leader, p, r.term))})
    case RecvAppend(m) =>
      var (n, reply) := OnAppendEntries(s.node[m.to], m.args);
      s.(node := s.node[m.to := n], appendAnswers := s.appendAnswers + {AppendAnswer(m.to, m.args, reply)})
    case RecvAppendAnswer(m) =>
      var l := m.args.leaderId;
      s.(node := s.node[l := OnAppendReply(s.node[l], Peers(s, l), m.from, m.args, m.reply)])
    case ClientSubmit(n, c) =>
      var (m, accepted) := Submit(s.node[n], c);
      var t := m.currentTerm;
      s.(node := s.node[n := m],
         reigns := if accepted && t in s.reigns then s.reigns[t := s.reigns[t].(log := m.log)] else s.reigns)
    case TakeReady(n) => s.(node := s.node[n := TakeCommitted(s.node[n])])
    case SendReady(n) => s.(node := s.node[n := Deliver(s.node[n])])
    case OverwriteReady(n) => s.(node := s.node[n := ShowLogInOutbox(s.node[n])])
  }

  lemma ApplyKeepsWellFormed(s: State, step: Step)
    requires WellFormed(s) && Enabled(s, step)
    ensures WellFormed(Apply(s, step))
  {
    ApplyKeepsVotes(s, step);
    ApplyKeepsAppends(s, step);
  }

  lemma ApplyKeepsVotes(s: State, step: Step)
    requires WellFormed(s) && Enabled(s, step)
    ensures VotesWellFormed(Apply(s, step))
  {
  }

  lemma ApplyKeepsAppends(s: State, step: Step)
    requires WellFormed(s) && Enabled(s, step)
    ensures AppendsWellFormed(Apply(s, step))
  {
  }

  // ---------- Currentness ----------

  /**
   * The places where the program captured a term and does not compare it with the node's present
   * term before acting on it. `Guards` says at which of them the comparison is taken to succeed
   * whenever it matters: late replies that only raise a term, or do nothing, are always handled.
   */
  datatype Guards = Guards(voteReplies: bool, snapshots: bool, appendReplies: bool)

  const CURRENT := Guards(true, true, true)

  /** Vote replies alone need be current. */
  const VOTES := Guards(true, false, false)

  /** Vote replies and the senders of append requests need be current. */
  const SENDERS := Guards(true, true, false)

  predicate Respects(s: State, step: Step, g: Guards)
    requires WellFormed(s) && Offered(s, step)
  {
    match step
    case RecvVoteAnswer(m) =>
      var b := s.elections[m.election];
      var n := s.node[b.candidate];
      g.voteReplies && VoteReplyBears(n, b.term, m.reply) ==> n.currentTerm == b.term
    case SendAppend(r, p) => g.snapshots ==> s.node[r.leader].currentTerm == r.term
    case RecvAppendAnswer(m) =>
      var l := s.node[m.args.leaderId];
      g.appendReplies && AppendReplyBears(l, m.args, m.reply) ==> l.currentTerm == m.args.term
    case _ => true
  }

  ghost predicate IsRun(g: Guards, states: seq<State>, steps: seq<Step>) {
    && |states| == |steps| + 1 && Initial(states[0])
    && forall i :: 0 <= i < |steps| ==> FollowsAt(g, states, steps, i)
  }

  ghost predicate FollowsAt(g: Guards, states: seq<State>, steps: seq<Step>, i: int) {
    0 <= i < |steps| && i + 1 < |states| && Follows(g, states[i], steps[i], states[i + 1])
  }

  ghost predicate Follows(g: Guards, s: State, step: Step, t: State) {
    WellFormed(s) && Enabled(s, step) && Respects(s, step, g) && t == Apply(s, step)
  }
}
