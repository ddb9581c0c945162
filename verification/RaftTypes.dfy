/** Wire and state types of the Raft core (crates/raft/src/types.rs). */
module RaftTypes {
  import opened Prelude
  import Kvsm

  type NodeId = nat
  type Term = nat
  type Index = nat

  datatype ConfChange = AddNode(id: NodeId) | RemoveNode(id: NodeId)

  datatype Payload = Noop | Normal(cmd: Kvsm.Command) | Conf(change: ConfChange)

  datatype Entry = Entry(term: Term, index: Index, payload: Payload)

  datatype HardState = HardState(term: Term, votedFor: Option<NodeId>)

  /** `data` is the decoded state-machine image; bincode is taken as an inverse pair. */
  datatype Snapshot = Snapshot(lastIndex: Index, lastTerm: Term, voters: seq<NodeId>, data: Kvsm.State)

  datatype Body =
    | PreVote(lastLogIndex: Index, lastLogTerm: Term)
    | PreVoteResp(granted: bool)
    | RequestVote(lastLogIndex: Index, lastLogTerm: Term)
    | RequestVoteResp(granted: bool)
    | AppendEntries(prevLogIndex: Index, prevLogTerm: Term, entries: seq<Entry>,
                    leaderCommit: Index, readCtx: nat)
    | AppendEntriesResp(success: bool, matchIndex: Index, conflictIndex: Index, readCtx: nat)
    | InstallSnapshot(snapshot: Snapshot)
    | InstallSnapshotResp(lastIndex: Index)

  datatype Message = Message(from: NodeId, to: NodeId, term: Term, body: Body)

  datatype Role = Follower | PreCandidate | Candidate | Leader

  datatype ReadState = ReadState(id: nat, index: Index)

  datatype Output = Output(
    messages: seq<Message>,
    committed: seq<Entry>,
    hardState: Option<HardState>,
    append: seq<Entry>,
    snapshot: Option<Snapshot>,
    readStates: seq<ReadState>)

  const NO_OUTPUT: Output := Output([], [], None, [], None, [])

  datatype Persisted = Persisted(hardState: HardState, entries: seq<Entry>, snapshot: Option<Snapshot>)

  datatype ProposeError = NotLeader(hint: Option<NodeId>) | ConfChangeInFlight | NotReady
}
