/** The vocabulary of the Raft layer: identifiers, blocks, commands, messages
    and the instructions a node hands to its state machine driver. */
module RaftTypes {

  const U64: nat := 0x1_0000_0000_0000_0000

  newtype byte = x: int | 0 <= x < 256

  type u64 = x: int | 0 <= x < U64

  type Bytes = seq<byte>
  type NodeId = nat
  type RequestId = nat
  type Term = u64
  type BlockId = u64

  datatype Option<+T> = None | Some(value: T)

  /** One block of the chain. `next` names the parent, not the child. */
  datatype Block = Block(id: BlockId, next: BlockId, data: Bytes)

  const GENESIS := Block(0, 0, [])

  datatype Address = Peers | Peer(id: NodeId) | Local | Client

  datatype ClientRequest = ClientRequest(id: RequestId, address: Address, proposal: Bytes)

  /** What a state machine transition reports back. */
  datatype Reply = Answer(data: Bytes) | Refused

  datatype Command =
    | Tick
    | Propose
    | VoteRequest(term: Term, candidateId: NodeId, lastTerm: Term, head: BlockId)
    | VoteResponse(term: Term, from: NodeId, granted: bool)
    | AppendEntries(term: Term, leaderId: NodeId, blocks: seq<Block>)
    | AppendResponse(nodeId: NodeId, term: Term, head: BlockId, success: bool)
    | Heartbeat(term: Term, commit: BlockId, leaderId: NodeId)
    | HeartbeatResponse(commit: BlockId, hasCommitted: bool)
    | Timeout
    | Noop
    | Request(request: ClientRequest)
    | Response(id: RequestId, reply: Reply)

  datatype Message = Message(from: Address, to: Address, command: Command)

  /** Traffic from a node to its state machine driver. */
  datatype Instruction =
    | Apply(block: Block)
    | Notify(id: RequestId, address: Address, blockId: BlockId)
}
