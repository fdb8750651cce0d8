/** The records of the consensus module: roles, log entries, the two RPCs and
    the state of one server. */
module RaftTypes {

  /** Server names. The empty name means "nobody" in `votedFor`. */
  type Id = string

  datatype Role = Follower | Candidate | Leader

  /** What a log entry carries. `Other` stands for every command type the
      ledger does not know; `NoCommand` is the nil command of the dummy entry. */
  datatype Command =
    | NoCommand
    | Transfer(txnId: string, from: string, to: string, amount: real)
    | CreateAccount(accountId: string, initialBalance: real)
    | Other(kind: string)

  datatype LogEntry = LogEntry(term: int, index: int, command: Command)

  /** The entry every log keeps at index 0. */
  const DUMMY := LogEntry(0, 0, NoCommand)

  datatype VoteRequest = VoteRequest(term: int, candidateId: Id, lastLogIndex: int, lastLogTerm: int)

  datatype VoteResponse = VoteResponse(term: int, granted: bool)

  datatype AppendRequest = AppendRequest(
    term: int,
    leaderId: Id,
    prevLogIndex: int,
    prevLogTerm: int,
    entries: seq<LogEntry>,
    leaderCommit: int)

  datatype AppendResponse = AppendResponse(term: int, success: bool)

  datatype ApplyMsg = ApplyMsg(valid: bool, command: Command, index: int, term: int)

  /** The state of one server. `sent` is everything it ever put on its apply channel. */
  datatype Node = Node(
    id: Id,
    peers: seq<Id>,
    majority: int,
    currentTerm: int,
    votedFor: Id,
    log: seq<LogEntry>,
    commitIndex: int,
    lastApplied: int,
    role: Role,
    nextIndex: map<Id, int>,
    matchIndex: map<Id, int>,
    votesReceived: int,
    sent: seq<ApplyMsg>)
}
