/** The vocabulary shared by every module: identifiers, log entries, wire messages and engine actions. */
module Types {

  type NodeId = nat
  type Term = nat
  type Index = nat
  type Instant = nat
  type Command = seq<bv8>

  datatype Option<+T> = None | Some(value: T) {
    function GetOr(default: T): T {
      if Some? then value else default
    }
  }

  datatype Role = Follower | Candidate | Leader

  /** What a node must not forget: its term and the vote it cast in that term. */
  datatype HardState = HardState(currentTerm: Term, votedFor: Option<NodeId>)

  datatype LogEntry = LogEntry(index: Index, term: Term, data: Command)

  type Log = seq<LogEntry>

  datatype Message =
    | RequestVote(term: Term, candidate: NodeId, lastLogIndex: Index, lastLogTerm: Term)
    | RequestVoteResp(term: Term, voteGranted: bool)
    | AppendEntries(term: Term, leader: NodeId, prevLogIndex: Index, prevLogTerm: Term,
                    entries: Log, leaderCommit: Index)
    | AppendEntriesResp(term: Term, success: bool, matchIndex: Index)
    | InstallSnapshot(term: Term)
    | InstallSnapshotResp(term: Term)

  datatype RpcKind = VoteRpc | AppendRpc | SnapshotRpc

  function KindOf(msg: Message): RpcKind {
    match msg
    case RequestVote(_, _, _, _) => VoteRpc
    case RequestVoteResp(_, _) => VoteRpc
    case AppendEntries(_, _, _, _, _, _) => AppendRpc
    case AppendEntriesResp(_, _, _) => AppendRpc
    case InstallSnapshot(_) => SnapshotRpc
    case InstallSnapshotResp(_) => SnapshotRpc
  }

  /** What the engine asks its host to do. */
  datatype Action =
    | Send(to: NodeId, msg: Message)
    | Broadcast(msg: Message)
    | Apply(entries: Log)
    | BecameLeader(term: Term)
    | BecameFollower(term: Term, leader: Option<NodeId>)
    | BecameCandidate(term: Term)

  /** The part of the configuration that the engine and the behaviour read. */
  datatype Config = Config(nodeId: NodeId, voters: seq<NodeId>,
                           electionTimeout: nat, electionJitter: nat,
                           heartbeatInterval: nat, rpcTimeout: nat)
}
