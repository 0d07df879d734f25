/** The message alphabet between a device and the server. */
module Protocol {
  import opened Wrappers
  import opened Operations

  /** An encrypted update or snapshot: what it carries, and its stored size. */
  datatype Blob = Blob(ops: set<Op>, bytes: nat)

  datatype StoredBlob = StoredBlob(seqNo: nat, blob: Blob)
  datatype PushBlob = PushBlob(id: nat, blob: Blob)
  datatype PushAck = PushAck(id: nat, seqNo: nat)
  datatype SnapshotBase = SnapshotBase(seqNo: nat, vv: set<Op>)

  datatype ClientFrame =
    | OpenDoc
    | PushUpdates(updates: seq<PushBlob>)
    | PullUpdates(since: nat)
    | Ack(lastAcked: nat)
    | PushSnapshot(upToSeq: nat, floor: nat, fromSeq: Option<nat>, upToVV: set<Op>, blob: Blob)
    | PullSnapshot

  datatype ServerFrame =
    | DocOpened(epoch: nat)
    | DocRejected(reason: string)
    | DocClosed(reason: string)
    | UpdatesAck(acks: seq<PushAck>)
    | UpdatesBatch(updates: seq<StoredBlob>, complete: bool)
    | UpdatesBroadcast(updates: seq<StoredBlob>)
    | SnapshotRequest(upToSeq: nat, floor: nat, base: Option<SnapshotBase>)
    | Snapshot(upToSeq: nat, blob: Blob, complete: bool)
    | SnapshotRequired(upToSeq: nat)
    | Presence(accounts: seq<nat>)

  /** Bytes off the wire: a frame naming its doc, or nothing decodable. */
  datatype Inbound = Undecodable | Frame(doc: nat, frame: ServerFrame)
}
