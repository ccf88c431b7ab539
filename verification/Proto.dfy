/** The wire and log vocabulary of the consensus library: log entries, snapshots and messages. */
module Proto {
  newtype byte = x: int | 0 <= x < 256

  datatype EntryType = EntryNormal | EntryConfChange

  datatype Entry = Entry(etype: EntryType, term: nat, index: nat, data: seq<byte>)

  /** Metadata of a state-machine snapshot: the last entry it covers. */
  datatype Snapshot = Snapshot(index: nat, term: nat)

  datatype MessageType =
    | MsgHup | MsgBeat | MsgProp | MsgApp | MsgAppResp | MsgVote | MsgVoteResp | MsgSnap
    | MsgHeartbeat | MsgHeartbeatResp | MsgUnreachable | MsgSnapStatus | MsgCheckQuorum
    | MsgTransferLeader | MsgTimeoutNow | MsgReadIndex | MsgReadIndexResp | MsgPreVote | MsgPreVoteResp

  /** Node identities; 0 stands for "none". */
  type Id = nat

  datatype Message = Message(
    mtype: MessageType, to: Id, from: Id, term: nat, logTerm: nat, index: nat,
    entries: seq<Entry>, commit: nat, snapshot: Snapshot,
    reject: bool, rejectHint: nat, context: seq<byte>)

  /** A message with every optional field at its default. */
  function Blank(mtype: MessageType, to: Id): Message {
    Message(mtype, to, 0, 0, 0, 0, [], 0, Snapshot(0, 0), false, 0, [])
  }
}
