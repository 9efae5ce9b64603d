/** The values that the nodes of a Raft cluster keep and exchange. */
module RaftTypes {
  type NodeId = nat

  /** Client commands are opaque to the protocol. */
  type Command(==, 00, !new)

  datatype LogEntry = LogEntry(command: Command, term: nat)

  type Log = seq<LogEntry>

  /** The live states of a node; a stopped node is not part of the model. */
  datatype Role = Follower | Candidate | Leader

  /** The value of `votedFor` when no vote has been given. */
  const NOBODY: int := -1

  datatype VoteArgs = VoteArgs(term: nat, candidateId: NodeId, lastLogIndex: int, lastLogTerm: int)

  datatype VoteReply = VoteReply(term: nat, granted: bool)

  datatype AppendArgs = AppendArgs(term: nat, leaderId: NodeId, prevLogIndex: int, prevLogTerm: int,
                                   entries: Log, leaderCommit: int)

  datatype AppendReply = AppendReply(term: nat, success: bool)

  /** What a client reads from the commit channel. */
  datatype CommitEntry = CommitEntry(command: Command, index: int)
}
