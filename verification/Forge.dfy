/**
 The requests that clients and forwarders exchange, and the constants of the protocol.
 */
module Forge {

  datatype Operation = READ | WRITE | OPEN | CLOSE

  const MAX_BATCH_SIZE := 16

  /** The most handlers, and the most threads of the pool, that the set-up checks allow. */
  const MAX_THREADS := 128

  const TAG_REQUEST := 10001
  const TAG_ACK := 10002
  const TAG_HANDLE := 10003

  /** The file a client works on: one that all share, or the one named after its rank. */
  datatype File = SharedFile | FileOf(rank: nat)

  /** What a client sends. */
  datatype Message = Message(op: Operation, file: File, handle: int, offset: int, size: nat)

  /** A request as the forwarder keeps it: what was sent, by whom, under which identifier. */
  datatype Request = Request(id: nat, rank: nat, msg: Message)

  /** Requests that the dispatcher may put into one batch. */
  predicate SameBatch(r: Request, s: Request) {
    r.msg.op == s.msg.op && r.msg.handle == s.msg.handle
  }
}
