/** Elections of the cluster: every step, seen without logs, is a step of `ElectionCore`. */
module ClusterElections {
  import opened RaftTypes
  import opened Quorums
  import opened NodeRules
  import opened Cluster
  import Core = ElectionCore

  function MemberOf(n: Node): Core.Member {
    Core.Member(n.currentTerm, n.votedFor, n.role)
  }

  function BallotOf(s: State, b: Election): Core.Ballot {
    Core.Ballot(b.candidate, b.term, s.servers, b.voters)
  }

  function VoteOf(m: VoteAnswer): Core.Vote {
    Core.Vote(m.from, m.args.candidateId, m.args.term)
  }

  /** The election state hidden in a cluster state. */
  ghost function CoreOf(s: State): Core.State {
    Core.State(map n | n in s.node :: MemberOf(s.node[n]),
               seq(|s.elections|, e requires 0 <= e < |s.elections| => BallotOf(s, s.elections[e])),
               set m | m in s.voteAnswers && m.reply.granted :: VoteOf(m),
               set t | t in s.reigns :: s.reigns[t].election)
  }

  ghost function CoreStep(s: State, step: Step): Core.Step
    requires WellFormed(s) && Enabled(s, step)
  {
    match step
    case Timeout(n) => Core.Campaign(n, s.servers)
    case RecvVoteRequest(m) =>
      if OnRequestVote(s.node[m.to], m.args).1.granted then Core.Grant(m.to, m.args.candidateId, m.args.term)
      else RaiseTo(s, m.to, m.args.term)
    case RecvVoteAnswer(m) =>
      var b := s.elections[m.election];
      if s.node[b.candidate].role != Candidate then Core.Stutter
      else if CountsVote(s.node[b.candidate], b.term, m.reply) then Core.Count(m.election, m.from)
      else RaiseTo(s, b.candidate, m.reply.term)
    case RecvAppend(m) =>
      if m.args.term == s.node[m.to].currentTerm && s.node[m.to].role != Follower then Core.Yield(m.to)
      else RaiseTo(s, m.to, m.args.term)
    case RecvAppendAnswer(m) => RaiseTo(s, m.args.leaderId, m.reply.term)
    case _ => Core.Stutter
  }

  ghost function RaiseTo(s: State, n: NodeId, term: nat): Core.Step
    requires n in s.node
  {
    if term > s.node[n].currentTerm then Core.Raise(n, term) else Core.Stutter
  }

  ghost predicate CoreInv(s: State) {
    Core.Inv(CoreOf(s)) && forall t: nat :: Core.TermInv(CoreOf(s), t)
  }

  /** Peer `p` granted its vote in election `e`, for the log that the request `args` describes. */
  ghost predicate VotedIn(s: State, p: NodeId, e: nat) {
    exists m :: m in s.voteAnswers && AnswerFrom(m, p, e)
  }

  predicate AnswerFrom(m: VoteAnswer, p: NodeId, e: nat) {
    m.from == p && m.election == e && m.reply.granted
  }

  /** The counter of an election is one more than the number of distinct peers that voted in it. */
  ghost predicate CountsSound(s: State) {
    forall e :: 0 <= e < |s.elections| ==> CountSound(s, e)
  }

  ghost predicate CountSound(s: State, e: nat)
    requires e < |s.elections|
  {
    var b := s.elections[e];
    b.votesReceived == 1 + |b.voters| && b.voters !! b.waiting && forall p :: p in b.voters ==> VotedIn(s, p, e)
  }

  ghost predicate ReignsWon(s: State) {
    forall t :: t in s.reigns ==>
      && s.reigns[t].election < |s.elections|
      && s.elections[s.reigns[t].election].term == t
      && s.elections[s.reigns[t].election].candidate == s.reigns[t].leader
  }

  /** Rounds and append requests of a term come from the leader of that term. */
  ghost predicate SpokenByLeader(s: State) {
    && (forall r :: r in s.rounds ==> r.term in s.reigns && s.reigns[r.term].leader == r.leader)
    && (forall m :: m in s.appendRequests ==>
          m.args.term in s.reigns && s.reigns[m.args.term].leader == m.args.leaderId)
  }

  ghost predicate ElectionInv(s: State) {
    WellFormed(s) && CoreInv(s) && CountsSound(s) && ReignsWon(s) && SpokenByLeader(s)
  }

  // ---------- What the election invariants say about the cluster ----------

  lemma LeaderReigns(s: State, n: NodeId)
    requires ElectionInv(s) && n in s.servers && s.node[n].role == Leader
    ensures s.node[n].currentTerm in s.reigns && s.reigns[s.node[n].currentTerm].leader == n
  {
    var c := CoreOf(s);
    assert Core.Led(c, n);
    var w :| w in c.wins && Core.WonBy(c, w, c.members[n].term) && c.ballots[w].candidate == n;
    var t :| t in s.reigns && s.reigns[t].election == w;
  }

  lemma ReignerLeads(s: State, t: nat)
    requires ElectionInv(s) && t in s.reigns
    ensures var l := s.reigns[t].leader;
            l in s.servers && s.node[l].currentTerm >= t && (s.node[l].currentTerm == t ==> s.node[l].role == Leader)
  {
    var c := CoreOf(s);
    var w := s.reigns[t].election;
    assert w in c.wins && Core.WonBy(c, w, t);
    assert Core.BallotSound(c, c.ballots[w]);
    assert Core.TermInv(c, t);
  }

  function Electors(s: State, e: nat): set<NodeId>
    requires e < |s.elections|
  {
    {s.elections[e].candidate} + s.elections[e].voters
  }

  /** The electors of a leader are a majority that has reached its term. */
  lemma ElectorsReached(s: State, t: nat)
    requires ElectionInv(s) && t in s.reigns
    ensures Majority(Electors(s, s.reigns[t].election), s.servers)
    ensures forall v :: v in Electors(s, s.reigns[t].election) ==> s.node[v].currentTerm >= t
  {
    var c := CoreOf(s);
    var w := s.reigns[t].election;
    assert w in c.wins && Core.Wins(c.ballots[w]);
    assert Core.BallotSound(c, c.ballots[w]);
    assert |Electors(s, w)| == 1 + |c.ballots[w].voters|;
    forall v | v in c.ballots[w].voters ensures s.node[v].currentTerm >= t {
      assert Core.Vote(v, c.ballots[w].candidate, t) in c.votes;
      assert v in c.members && c.members[v].term == s.node[v].currentTerm;
    }
  }

  /** A vote keeps its voter at or above its term. */
  lemma VoterReached(s: State, m: VoteAnswer)
    requires ElectionInv(s) && m in s.voteAnswers && m.reply.granted
    ensures s.node[m.from].currentTerm >= m.args.term
  {
    var c := CoreOf(s);
    assert VoteOf(m) in c.votes;
    assert c.members[m.from].term == s.node[m.from].currentTerm;
  }

  /** A candidate never falls behind an election of its own. */
  lemma CandidateReached(s: State, e: nat)
    requires ElectionInv(s) && e < |s.elections|
    ensures s.node[s.elections[e].candidate].currentTerm >= s.elections[e].term
  {
    var c := CoreOf(s);
    assert Core.BallotSound(c, c.ballots[e]);
  }

  // ---------- Steps ----------

  /** The one node whose state a step may change. */
  function Actor(s: State, step: Step): (n: NodeId)
    requires WellFormed(s) && Offered(s, step)
    ensures n in s.servers
  {
    match step
    case Timeout(n) => n
    case SendVoteRequest(e, p) => s.elections[e].candidate
    case RecvVoteRequest(m) => m.to
    case RecvVoteAnswer(m) => s.elections[m.election].candidate
    case StartRound(n) => n
    case SendAppend(r, p) => r.leader
    case RecvAppend(m) => m.to
    case RecvAppendAnswer(m) => m.args.leaderId
    case ClientSubmit(n, c) => n
    case TakeReady(n) => n
    case SendReady(n) => n
    case OverwriteReady(n) => n
  }

  /** No step changes any other node. */
  lemma ActorFrame(s: State, step: Step)
    requires WellFormed(s) && Enabled(s, step)
    ensures var n := Actor(s, step); Apply(s, step).node == s.node[n := Apply(s, step).node[n]]
  {
  }

  lemma PeersSize(s: State, n: NodeId)
    requires n in s.servers
    ensures |Peers(s, n)| + 1 == |s.servers|
  {
    assert s.servers == Peers(s, n) + {n};
  }

  lemma CoreStepEnabled(s: State, step: Step)
    requires ElectionInv(s) && Enabled(s, step) && Respects(s, step, VOTES)
    ensures Core.Enabled(CoreOf(s), CoreStep(s, step))
  {
    match step
    case RecvVoteRequest(m) => VoteRequestEnabled(s, step);
    case RecvVoteAnswer(m) => VoteAnswerEnabled(s, step);
    case RecvAppend(m) => AppendEnabled(s, step);
    case _ =>
  }

  lemma VoteRequestEnabled(s: State, step: Step)
    requires WellFormed(s) && Enabled(s, step) && step.RecvVoteRequest?
    ensures Core.Enabled(CoreOf(s), CoreStep(s, step))
  {
    AskedIsOther(s, step.request);
  }

  lemma VoteAnswerEnabled(s: State, step: Step)
    requires WellFormed(s) && CountsSound(s) && Enabled(s, step) && Respects(s, step, VOTES) && step.RecvVoteAnswer?
    ensures Core.Enabled(CoreOf(s), CoreStep(s, step))
  {
    AnswerIsVote(s, step.answer);
  }

  lemma AppendEnabled(s: State, step: Step)
    requires ElectionInv(s) && Enabled(s, step) && step.RecvAppend?
    ensures Core.Enabled(CoreOf(s), CoreStep(s, step))
  {
    AppendMeansBeaten(s, step.append);
  }

  lemma AskedIsOther(s: State, m: VoteRequest)
    requires WellFormed(s) && m in s.voteRequests
    ensures m.to in s.node && m.to != m.args.candidateId
  {
  }

  lemma AnswerIsVote(s: State, m: VoteAnswer)
    requires WellFormed(s) && CountsSound(s) && m in s.voteAnswers && m.from in s.elections[m.election].waiting
    ensures m.from in s.servers && m.from !in s.elections[m.election].voters
    ensures var b := s.elections[m.election];
            m.reply.granted ==> Core.Vote(m.from, b.candidate, b.term) in CoreOf(s).votes
  {
    assert CountSound(s, m.election);
    if m.reply.granted {
      assert VoteOf(m) in CoreOf(s).votes;
    }
  }

  /** A request that reaches another node of its term shows that the term is won. */
  lemma AppendMeansBeaten(s: State, m: AppendRequest)
    requires ElectionInv(s) && m in s.appendRequests
    ensures Core.Beaten(CoreOf(s), m.to, m.args.term)
  {
    var c, t := CoreOf(s), m.args.term;
    var w := s.reigns[t].election;
    assert w in c.wins && Core.WonBy(c, w, t) && c.ballots[w].candidate != m.to;
  }

  /** A node that is elected is the first leader of its term. */
  lemma WinIsNew(s: State, step: Step)
    requires ElectionInv(s) && Enabled(s, step) && Respects(s, step, VOTES) && step.RecvVoteAnswer?
    requires var b := s.elections[step.answer.election];
             CountsVote(s.node[b.candidate], b.term, step.answer.reply)
             && Outvotes(b.votesReceived + 1, Peers(s, b.candidate))
    ensures s.elections[step.answer.election].term !in s.reigns
  {
    var c := CoreOf(s);
    var e := step.answer.election;
    var t := s.elections[e].term;
    CoreStepEnabled(s, step);
    if t in s.reigns {
      var w := s.reigns[t].election;
      assert w in c.wins && Core.WonBy(c, w, t);
      assert Core.TermInv(c, t);
      SameConfigsMeet(s, t);
      Core.NoSecondWin(c, CoreStep(s, step), w);
      WinsIsOutvoting(s, e, step.answer.from);
    }
  }

  lemma SameConfigsMeet(s: State, t: nat)
    ensures Core.TermMeets(CoreOf(s), t)
  {
    forall p: set<NodeId>, q: set<NodeId> | Majority(p, s.servers) && Majority(q, s.servers) ensures p * q != {} {
      Overlap(p, q, s.servers);
    }
  }

  /** Changing one node, and no ballot, vote or reign, changes one member. */
  lemma CoreAfterNode(s: State, t: State, n: NodeId)
    requires n in s.node && n in t.node && t.node == s.node[n := t.node[n]]
    requires t.servers == s.servers && t.elections == s.elections && t.voteAnswers == s.voteAnswers
    requires t.reigns.Keys == s.reigns.Keys
    requires forall u :: u in s.reigns ==> t.reigns[u].election == s.reigns[u].election
    ensures CoreOf(t) == CoreOf(s).(members := CoreOf(s).members[n := MemberOf(t.node[n])])
  {
    var c, d := CoreOf(s), CoreOf(t);
    assert d.members == c.members[n := MemberOf(t.node[n])];
    assert d.ballots == c.ballots;
    assert d.wins == c.wins;
  }

  lemma StepRefinesCore(s: State, step: Step)
    requires ElectionInv(s) && Enabled(s, step) && Respects(s, step, VOTES)
    ensures Core.Enabled(CoreOf(s), CoreStep(s, step))
    ensures CoreOf(Apply(s, step)) == Core.Apply(CoreOf(s), CoreStep(s, step))
  {
    CoreStepEnabled(s, step);
    match step
    case Timeout(n) => TimeoutRefines(s, step);
    case RecvVoteRequest(m) => VoteRequestRefines(s, step);
    case RecvVoteAnswer(m) => VoteAnswerRefines(s, step);
    case _ => OtherRefines(s, step);
  }

  lemma TimeoutRefines(s: State, step: Step)
    requires WellFormed(s) && step.Timeout? && Enabled(s, step) && Core.Enabled(CoreOf(s), CoreStep(s, step))
    ensures CoreOf(Apply(s, step)) == Core.Apply(CoreOf(s), CoreStep(s, step))
  {
    var d, x := CoreOf(Apply(s, step)), Core.Apply(CoreOf(s), CoreStep(s, step));
    assert d.members == x.members;
    assert d.ballots == x.ballots;
  }

  lemma VoteRequestRefines(s: State, step: Step)
    requires WellFormed(s) && step.RecvVoteRequest? && Enabled(s, step) && Core.Enabled(CoreOf(s), CoreStep(s, step))
    ensures CoreOf(Apply(s, step)) == Core.Apply(CoreOf(s), CoreStep(s, step))
  {
    var t, m := Apply(s, step), step.request;
    MembersAfter(s, t, m.to);
    VotesAfter(s, t, VoteAnswer(m.to, m.election, m.args, OnRequestVote(s.node[m.to], m.args).1));
    assert CoreOf(t).ballots == CoreOf(s).ballots;
    GrantMember(s.node[m.to], m.args);
    assert CoreOf(s).members[m.to := CoreOf(s).members[m.to]] == CoreOf(s).members;
  }

  lemma VotesAfter(s: State, x: State, m: VoteAnswer)
    requires x.voteAnswers == s.voteAnswers + {m}
    ensures CoreOf(x).votes == CoreOf(s).votes + if m.reply.granted then {VoteOf(m)} else {}
  {
    assert forall r :: r in x.voteAnswers <==> r in s.voteAnswers || r == m;
  }

  /** What a vote request does to the receiver's term, vote and role. */
  lemma GrantMember(n: Node, a: VoteArgs)
    ensures var (after, reply) := OnRequestVote(n, a);
            MemberOf(after) ==
            if reply.granted
            then Core.Member(a.term, a.candidateId, if a.term > n.currentTerm then Follower else n.role)
            else if a.term > n.currentTerm then Core.Member(a.term, NOBODY, Follower)
            else MemberOf(n)
  {
  }

  lemma VoteAnswerRefines(s: State, step: Step)
    requires ElectionInv(s) && step.RecvVoteAnswer? && Enabled(s, step) && Respects(s, step, VOTES)
    requires Core.Enabled(CoreOf(s), CoreStep(s, step))
    ensures CoreOf(Apply(s, step)) == Core.Apply(CoreOf(s), CoreStep(s, step))
  {
    var m := step.answer;
    var b := s.elections[m.election];
    if CountsVote(s.node[b.candidate], b.term, m.reply) {
      assert CountSound(s, m.election);
      WinsIsOutvoting(s, m.election, m.from);
      if Outvotes(b.votesReceived + 1, Peers(s, b.candidate)) {
        WinIsNew(s, step);
      }
      CountRefines(s, step);
    } else {
      CandidateReached(s, m.election);
      UncountedRefines(s, step);
    }
  }

  lemma UncountedRefines(s: State, step: Step)
    requires WellFormed(s) && step.RecvVoteAnswer? && Enabled(s, step) && Respects(s, step, VOTES)
    requires var b := s.elections[step.answer.election];
             && !CountsVote(s.node[b.candidate], b.term, step.answer.reply)
             && b.term <= s.node[b.candidate].currentTerm
    requires Core.Enabled(CoreOf(s), CoreStep(s, step))
    ensures CoreOf(Apply(s, step)) == Core.Apply(CoreOf(s), CoreStep(s, step))
  {
    var d, x := CoreOf(Apply(s, step)), Core.Apply(CoreOf(s), CoreStep(s, step));
    assert d.members == x.members;
    assert d.ballots == x.ballots;
  }

  /** The effect of counting the vote of `v`: one more voter, and a reign if that makes a majority. */
  ghost predicate CountedIn(s: State, x: State, e: nat, v: NodeId) {
    && e < |s.elections| == |x.elections|
    && var b, d := s.elections[e], x.elections[e];
    var c := b.candidate;
    && c in s.node && c in x.node
    && x.servers == s.servers && x.voteAnswers == s.voteAnswers
    && x.elections == s.elections[e := d] && BallotOf(x, d) == BallotOf(s, b).(voters := b.voters + {v})
    && x.node == s.node[c := x.node[c]]
    && MemberOf(x.node[c])
       == MemberOf(s.node[c]).(role := if Core.Wins(BallotOf(x, d)) then Leader else s.node[c].role)
    && x.reigns == if Core.Wins(BallotOf(x, d)) then s.reigns[b.term := Reign(c, e, x.node[c].log)] else s.reigns
  }

  lemma WinsIsOutvoting(s: State, e: nat, v: NodeId)
    requires WellFormed(s) && CountsSound(s) && e < |s.elections| && v !in s.elections[e].voters
    ensures var b := s.elections[e];
            Outvotes(b.votesReceived + 1, Peers(s, b.candidate)) == Core.Wins(BallotOf(s, b).(voters := b.voters + {v}))
  {
    var b := s.elections[e];
    assert CountSound(s, e);
    PeersSize(s, b.candidate);
    assert |b.voters + {v}| == 1 + |b.voters|;
  }

  lemma CountEffect(s: State, step: Step)
    requires WellFormed(s) && step.RecvVoteAnswer? && Enabled(s, step) && Respects(s, step, VOTES)
    requires var b := s.elections[step.answer.election];
             && CountsVote(s.node[b.candidate], b.term, step.answer.reply)
             && Outvotes(b.votesReceived + 1, Peers(s, b.candidate))
                == Core.Wins(BallotOf(s, b).(voters := b.voters + {step.answer.from}))
    ensures CountedIn(s, Apply(s, step), step.answer.election, step.answer.from)
  {
    var b := s.elections[step.answer.election];
    CountedNode(s.node[b.candidate], Peers(s, b.candidate), b.term, b.votesReceived, step.answer.reply);
  }

  lemma CountedNode(n: Node, peers: set<NodeId>, saved: nat, votes: nat, r: VoteReply)
    requires CountsVote(n, saved, r)
    ensures OnVoteReply(n, peers, saved, votes, r)
            == (if Outvotes(votes + 1, peers) then StartLeader(n, peers) else n, votes + 1)
  {
  }

  lemma CountRefines(s: State, step: Step)
    requires WellFormed(s) && step.RecvVoteAnswer? && Enabled(s, step) && Respects(s, step, VOTES)
    requires var b := s.elections[step.answer.election];
             var wins := Core.Wins(BallotOf(s, b).(voters := b.voters + {step.answer.from}));
             && CountsVote(s.node[b.candidate], b.term, step.answer.reply)
             && Outvotes(b.votesReceived + 1, Peers(s, b.candidate)) == wins
             && (wins ==> b.term !in s.reigns)
    requires Core.Enabled(CoreOf(s), CoreStep(s, step))
    ensures CoreOf(Apply(s, step)) == Core.Apply(CoreOf(s), CoreStep(s, step))
  {
    CountEffect(s, step);
    CountedCore(s, Apply(s, step), step.answer.election, step.answer.from);
  }

  lemma CountedCore(s: State, x: State, e: nat, v: NodeId)
    requires CountedIn(s, x, e, v) && Core.Enabled(CoreOf(s), Core.Count(e, v))
    requires Core.Wins(BallotOf(x, x.elections[e])) ==> s.elections[e].term !in s.reigns
    ensures CoreOf(x) == Core.Apply(CoreOf(s), Core.Count(e, v))
  {
    MembersAfter(s, x, s.elections[e].candidate);
    BallotsAfter(s, x, e);
    WinsAfter(s, x, e);
    assert Core.Wins(BallotOf(x, x.elections[e])) ==> s.elections[e].term in x.reigns.Keys;
  }

  lemma MembersAfter(s: State, x: State, c: NodeId)
    requires c in s.node && c in x.node && x.node == s.node[c := x.node[c]]
    ensures CoreOf(x).members == CoreOf(s).members[c := MemberOf(x.node[c])]
  {
  }

  lemma BallotsAfter(s: State, x: State, e: nat)
    requires e < |s.elections| == |x.elections| && x.elections == s.elections[e := x.elections[e]]
    requires x.servers == s.servers
    ensures CoreOf(x).ballots == CoreOf(s).ballots[e := BallotOf(x, x.elections[e])]
  {
  }

  lemma WinsAfter(s: State, x: State, e: nat)
    requires e < |s.elections|
    requires forall t :: t in s.reigns ==> t in x.reigns && x.reigns[t].election == s.reigns[t].election
    requires x.reigns.Keys == s.reigns.Keys
             || (x.reigns.Keys == s.reigns.Keys + {s.elections[e].term} && x.reigns[s.elections[e].term].election == e)
    ensures x.reigns.Keys == s.reigns.Keys ==> CoreOf(x).wins == CoreOf(s).wins
    ensures x.reigns.Keys != s.reigns.Keys ==> CoreOf(x).wins == CoreOf(s).wins + {e}
  {
    forall w | w in CoreOf(s).wins ensures w in CoreOf(x).wins {
      var t :| t in s.reigns && s.reigns[t].election == w;
      assert t in x.reigns;
    }
    if x.reigns.Keys != s.reigns.Keys {
      assert s.elections[e].term in x.reigns;
    }
  }

  lemma OtherRefines(s: State, step: Step)
    requires WellFormed(s) && Enabled(s, step) && Core.Enabled(CoreOf(s), CoreStep(s, step))
    requires !step.Timeout? && !step.RecvVoteRequest? && !step.RecvVoteAnswer?
    ensures CoreOf(Apply(s, step)) == Core.Apply(CoreOf(s), CoreStep(s, step))
  {
    var t, n := Apply(s, step), Actor(s, step);
    OtherMembers(s, step);
    CoreAfterNode(s, t, n);
    assert CoreOf(s).members[n := MemberOf(s.node[n])] == CoreOf(s).members;
  }

  lemma OtherMembers(s: State, step: Step)
    requires WellFormed(s) && Enabled(s, step)
    requires !step.Timeout? && !step.RecvVoteRequest? && !step.RecvVoteAnswer?
    ensures var t, n := Apply(s, step), Actor(s, step);
            && t.node == s.node[n := t.node[n]] && t.servers == s.servers && t.elections == s.elections
            && t.voteAnswers == s.voteAnswers && t.reigns.Keys == s.reigns.Keys
            && (forall u :: u in s.reigns ==> t.reigns[u].election == s.reigns[u].election)
            && MemberOf(t.node[n]) == match CoreStep(s, step)
               case Raise(_, term) => Core.Member(term, NOBODY, Follower)
               case Yield(_) => Core.Member(s.node[n].currentTerm, NOBODY, Follower)
               case _ => MemberOf(s.node[n])
  {
  }

  lemma StepKeepsCore(s: State, step: Step)
    requires ElectionInv(s) && Enabled(s, step) && Respects(s, step, VOTES)
    ensures CoreInv(Apply(s, step))
  {
    StepRefinesCore(s, step);
    Core.StepKeepsInv(CoreOf(s), CoreStep(s, step));
    forall t: nat ensures Core.TermInv(CoreOf(Apply(s, step)), t) {
      SameConfigsMeet(s, t);
      Core.StepKeepsTermInv(CoreOf(s), CoreStep(s, step), t);
    }
  }

  lemma StepKeepsCounts(s: State, step: Step)
    requires WellFormed(s) && CountsSound(s) && Enabled(s, step)
    ensures CountsSound(Apply(s, step))
  {
    forall e | 0 <= e < |Apply(s, step).elections| ensures CountSound(Apply(s, step), e) {
      StepKeepsCount(s, step, e);
    }
  }

  lemma StepKeepsCount(s: State, step: Step, e: nat)
    requires WellFormed(s) && CountsSound(s) && Enabled(s, step) && e < |Apply(s, step).elections|
    ensures CountSound(Apply(s, step), e)
  {
    if step.RecvVoteAnswer? && step.answer.election == e {
      AnswerKeepsCount(s, step);
    } else if e < |s.elections| {
      OtherElections(s, step, e);
      assert CountSound(s, e);
      forall p | p in s.elections[e].voters ensures VotedIn(Apply(s, step), p, e) {
        VotedInStays(s, Apply(s, step), p, e);
      }
    } else {
      NewElection(s, step);
    }
  }

  lemma OtherElections(s: State, step: Step, e: nat)
    requires WellFormed(s) && Enabled(s, step) && e < |s.elections|
    requires !(step.RecvVoteAnswer? && step.answer.election == e)
    ensures e < |Apply(s, step).elections| && Apply(s, step).elections[e] == s.elections[e]
    ensures s.voteAnswers <= Apply(s, step).voteAnswers
  {
  }

  lemma NewElection(s: State, step: Step)
    requires WellFormed(s) && Enabled(s, step) && |s.elections| < |Apply(s, step).elections|
    ensures var t, e := Apply(s, step), |s.elections|;
            |t.elections| == e + 1 && t.elections[e].votesReceived == 1 && t.elections[e].voters == {}
  {
  }

  lemma AnswerKeepsCount(s: State, step: Step)
    requires WellFormed(s) && CountsSound(s) && Enabled(s, step) && step.RecvVoteAnswer?
    ensures CountSound(Apply(s, step), step.answer.election)
  {
    var t, m, e := Apply(s, step), step.answer, step.answer.election;
    assert CountSound(s, e);
    forall p | p in t.elections[e].voters ensures VotedIn(t, p, e) {
      if p !in s.elections[e].voters {
        assert AnswerFrom(m, p, e) && VotedIn(s, p, e);
      }
      VotedInStays(s, t, p, e);
    }
  }

  lemma VotedInStays(s: State, t: State, p: NodeId, e: nat)
    requires VotedIn(s, p, e) && s.voteAnswers <= t.voteAnswers
    ensures VotedIn(t, p, e)
  {
    var m :| m in s.voteAnswers && AnswerFrom(m, p, e);
    assert m in t.voteAnswers;
  }

  // ---------- What every step leaves in place ----------

  predicate IsPrefix(a: Log, b: Log) {
    |a| <= |b| && a == b[..|a|]
  }

  /** Terms never fall; messages, elections and reigns stay, and reigns only extend their logs. */
  ghost predicate Evolves(s: State, t: State) {
    && WellFormed(s) && WellFormed(t)
    && t.servers == s.servers
    && (forall n :: n in s.servers ==> s.node[n].currentTerm <= t.node[n].currentTerm)
    && |s.elections| <= |t.elections|
    && (forall e :: 0 <= e < |s.elections| ==>
          t.elections[e].candidate == s.elections[e].candidate && t.elections[e].term == s.elections[e].term)
    && (forall u :: u in s.reigns ==> u in t.reigns && ReignEvolves(s.reigns[u], t.reigns[u]))
    && s.rounds <= t.rounds
    && s.voteRequests <= t.voteRequests && s.voteAnswers <= t.voteAnswers
    && s.appendRequests <= t.appendRequests && s.appendAnswers <= t.appendAnswers
  }

  predicate ReignEvolves(r: Reign, x: Reign) {
    x.leader == r.leader && x.election == r.election && IsPrefix(r.log, x.log)
  }

  /** A leader's log is the log of its reign. */
  ghost predicate LeadersLog(s: State) {
    forall n :: n in s.node && s.node[n].role == Leader ==>
      s.node[n].currentTerm in s.reigns && s.reigns[s.node[n].currentTerm].leader == n
      && s.reigns[s.node[n].currentTerm].log == s.node[n].log
  }

  /** The step makes a candidate leader. */
  predicate Elects(s: State, step: Step)
    requires WellFormed(s) && Offered(s, step)
  {
    step.RecvVoteAnswer? &&
    var b := s.elections[step.answer.election];
    CountsVote(s.node[b.candidate], b.term, step.answer.reply)
    && Outvotes(b.votesReceived + 1, Peers(s, b.candidate))
  }

  lemma TermsRise(s: State, step: Step)
    requires WellFormed(s) && Enabled(s, step) && Respects(s, step, VOTES)
    ensures forall n :: n in s.servers ==> s.node[n].currentTerm <= Apply(s, step).node[n].currentTerm
  {
    ActorFrame(s, step);
    match step
    case RecvVoteAnswer(m) =>
      var b := s.elections[m.election];
      VoteReplyTerm(s.node[b.candidate], Peers(s, b.candidate), b.term, b.votesReceived, m.reply);
    case RecvAppend(m) => AppendTerm(s.node[m.to], m.args);
    case RecvAppendAnswer(m) =>
      AppendReplyTerm(s.node[m.args.leaderId], Peers(s, m.args.leaderId), m.from, m.args, m.reply);
    case _ => QuietTerm(s, step);
  }

  lemma VoteReplyTerm(n: Node, peers: set<NodeId>, saved: nat, votes: nat, r: VoteReply)
    requires VoteReplyBears(n, saved, r) ==> n.currentTerm == saved
    ensures OnVoteReply(n, peers, saved, votes, r).0.currentTerm >= n.currentTerm
  {
  }

  lemma AppendTerm(n: Node, a: AppendArgs)
    ensures OnAppendEntries(n, a).0.currentTerm >= n.currentTerm
  {
  }

  lemma AppendReplyTerm(n: Node, peers: set<NodeId>, from: NodeId, a: AppendArgs, r: AppendReply)
    ensures OnAppendReply(n, peers, from, a, r).currentTerm >= n.currentTerm
  {
  }

  lemma QuietTerm(s: State, step: Step)
    requires WellFormed(s) && Enabled(s, step)
    requires !step.RecvVoteAnswer? && !step.RecvAppend? && !step.RecvAppendAnswer?
    ensures Apply(s, step).node[Actor(s, step)].currentTerm >= s.node[Actor(s, step)].currentTerm
  {
  }

  lemma ReignsStay(s: State, step: Step)
    requires WellFormed(s) && LeadersLog(s) && Enabled(s, step) && Respects(s, step, VOTES)
    requires Elects(s, step) ==> s.elections[step.answer.election].term !in s.reigns
    ensures forall u :: u in s.reigns ==>
              u in Apply(s, step).reigns && ReignEvolves(s.reigns[u], Apply(s, step).reigns[u])
  {
    if step.RecvVoteAnswer? {
      AnswerKeepsReigns(s, step);
    } else if step.ClientSubmit? {
      SubmitKeepsReign(s, step);
    } else {
      SameReigns(s, step);
    }
  }

  lemma AnswerKeepsReigns(s: State, step: Step)
    requires WellFormed(s) && Enabled(s, step) && Respects(s, step, VOTES) && step.RecvVoteAnswer?
    requires Elects(s, step) ==> s.elections[step.answer.election].term !in s.reigns
    ensures forall u :: u in s.reigns ==> u in Apply(s, step).reigns && Apply(s, step).reigns[u] == s.reigns[u]
  {
  }

  lemma SubmitKeepsReign(s: State, step: Step)
    requires WellFormed(s) && LeadersLog(s) && Enabled(s, step) && step.ClientSubmit?
    ensures forall u :: u in s.reigns ==>
              u in Apply(s, step).reigns && ReignEvolves(s.reigns[u], Apply(s, step).reigns[u])
  {
  }

  lemma SameReigns(s: State, step: Step)
    requires WellFormed(s) && Enabled(s, step) && !step.RecvVoteAnswer? && !step.ClientSubmit?
    ensures Apply(s, step).reigns == s.reigns
  {
  }

  lemma NewReigns(s: State, step: Step)
    requires WellFormed(s) && LeadersLog(s) && Enabled(s, step) && Respects(s, step, VOTES)
    requires Elects(s, step) ==> s.elections[step.answer.election].term !in s.reigns
    ensures forall u :: u in Apply(s, step).reigns && u !in s.reigns ==>
              && Elects(s, step)
              && u == s.elections[step.answer.election].term
              && Apply(s, step).reigns[u].election == step.answer.election
              && Apply(s, step).reigns[u].leader == s.elections[step.answer.election].candidate
  {
  }

  lemma MessagesStay(s: State, step: Step)
    requires WellFormed(s) && Enabled(s, step)
    ensures var t := Apply(s, step);
            && t.servers == s.servers && s.rounds <= t.rounds
            && s.voteRequests <= t.voteRequests && s.voteAnswers <= t.voteAnswers
            && s.appendRequests <= t.appendRequests && s.appendAnswers <= t.appendAnswers
            && |s.elections| <= |t.elections|
            && (forall e :: 0 <= e < |s.elections| ==>
                  t.elections[e].candidate == s.elections[e].candidate && t.elections[e].term == s.elections[e].term)
  {
  }

  lemma StepEvolves(s: State, step: Step)
    requires ElectionInv(s) && LeadersLog(s) && Enabled(s, step) && Respects(s, step, VOTES)
    ensures Evolves(s, Apply(s, step))
  {
    ApplyKeepsWellFormed(s, step);
    if Elects(s, step) {
      WinIsNew(s, step);
    }
    EvolvesBy(s, step);
  }

  lemma EvolvesBy(s: State, step: Step)
    requires WellFormed(s) && LeadersLog(s) && Enabled(s, step) && Respects(s, step, VOTES)
    requires Elects(s, step) ==> s.elections[step.answer.election].term !in s.reigns
    ensures Evolves(s, Apply(s, step))
  {
    ApplyKeepsWellFormed(s, step);
    TermsRise(s, step);
    ReignsStay(s, step);
    MessagesStay(s, step);
  }

  lemma StepKeepsReignsWon(s: State, step: Step)
    requires WellFormed(s) && ReignsWon(s) && LeadersLog(s) && Enabled(s, step) && Respects(s, step, VOTES)
    requires Elects(s, step) ==> s.elections[step.answer.election].term !in s.reigns
    ensures ReignsWon(Apply(s, step))
  {
    ReignsStay(s, step);
    NewReigns(s, step);
    MessagesStay(s, step);
  }

  lemma StepKeepsSpokenByLeader(s: State, step: Step)
    requires WellFormed(s) && SpokenByLeader(s) && LeadersLog(s) && Enabled(s, step) && Respects(s, step, VOTES)
    requires Elects(s, step) ==> s.elections[step.answer.election].term !in s.reigns
    ensures SpokenByLeader(Apply(s, step))
  {
    ReignsStay(s, step);
  }

  lemma StepKeepsElectionInv(s: State, step: Step)
    requires ElectionInv(s) && LeadersLog(s) && Enabled(s, step) && Respects(s, step, VOTES)
    ensures ElectionInv(Apply(s, step))
  {
    ApplyKeepsWellFormed(s, step);
    StepKeepsCore(s, step);
    StepKeepsCounts(s, step);
    if Elects(s, step) {
      WinIsNew(s, step);
    }
    StepKeepsReignsWon(s, step);
    StepKeepsSpokenByLeader(s, step);
  }
}
