/** The values that travel between Raft servers: log entries, roles, and the
    arguments and replies of the two remote procedures. */
module RaftTypes {

  /** Servers are named by strings. */
  datatype ServerId = ServerId(name: string)

  /** A client command. Only its equality matters to consensus. */
  datatype Command = Command(payload: string)

  datatype Entry = Entry(index: nat, term: nat, command: Command)

  datatype Role = Follower | Candidate | Leader

  datatype RequestVoteArg = RequestVoteArg(
    candidateId: ServerId,
    term: nat,
    lastLogIndex: nat,
    lastLogTerm: nat)

  datatype RequestVoteReply = RequestVoteReply(voteGranted: bool, term: nat)

  datatype AppendEntriesArg = AppendEntriesArg(
    leaderId: ServerId,
    term: nat,
    prevLogIndex: nat,
    prevLogTerm: nat,
    leaderCommit: nat,
    entries: seq<Entry>)

  /** The hint a follower attaches to a rejection. */
  datatype Conflict = Conflict(term: nat, index: nat)

  datatype AppendEntriesReply = AppendEntriesReply(success: bool, term: nat, conflict: Conflict)

  function Max(a: nat, b: nat): nat { if a < b then b else a }

  function Min(a: nat, b: nat): nat { if a < b then a else b }
}
