/** What every call of the sync engine does, as a function from the engine and
    its storage to the engine and its storage. `history` records the store
    after each storage write, so a crash can be placed between any two. */
module EngineSpec {
  import opened Wrappers
  import opened Operations
  import opened Protocol
  import opened LocalStore
  import opened Documents

  datatype ConnState = Disconnected | Opening | Pulling | Bootstrapping | Idle | Pushing | PushingDirty

  datatype Event =
    | ConnStateChanged(online: bool)
    | PulledInitial
    | Pushed
    | FrontierAdvanced(seqNo: nat)
    | Error(message: string)
    | ClosedByServer(reason: string)
    | PresenceChanged(accounts: seq<nat>)

  datatype InFlight = InFlight(id: nat, payload: Blob, toVV: set<Op>)

  /** What the engine does on one connection, in order: the frames it queues,
      the pull it completes, the push acks it accepts. */
  datatype Mark = Sent(frame: ClientFrame) | PullDone | PushDone(id: nat)

  datatype Engine = Engine(
    docId: nat,
    codec: Codec,
    doc: Doc,
    known: set<Op>,
    inFlight: Option<InFlight>,
    lastLocalSeq: nat,
    walRows: nat,
    walBytes: nat,
    state: ConnState,
    contig: nat,
    epoch: Option<nat>,
    durable: nat,
    sentAck: nat,
    outbox: seq<ClientFrame>,
    events: seq<Event>,
    trace: seq<Mark>)

  datatype Sys = Sys(e: Engine, st: Store, history: seq<Store>)

  function Write(s: Sys, st: Store): Sys { s.(st := st, history := s.history + [st]) }

  function Emit(e: Engine, ev: Event): Engine { e.(events := e.events + [ev]) }

  function Send(e: Engine, frame: ClientFrame): Engine {
    e.(outbox := e.outbox + [frame], trace := e.trace + [Sent(frame)])
  }

  /** Queued frames are dropped; the in-flight push is kept. */
  function GoDisconnected(e: Engine): Engine {
    Emit(e.(state := Disconnected, outbox := [], trace := []), ConnStateChanged(false))
  }

  // ---- boot ----

  function New(docId: nat, codec: Codec, doc: Doc, acked: nat): Engine {
    Engine(docId, codec, doc, {}, None, 0, 0, 0, Disconnected, acked, None, acked, acked, [], [], [])
  }

  function SeedBoot(e: Engine, m: BootMeta): Engine {
    e.(lastLocalSeq := m.lastLocalSeq,
       walRows := m.walRows,
       walBytes := m.walBytes,
       known := m.knownVV,
       inFlight := if m.inFlight.Some?
                   then Some(InFlight(m.inFlight.value.id, m.inFlight.value.payload, m.inFlight.value.toVV))
                   else e.inFlight)
  }

  function Boot(docId: nat, codec: Codec, st: Store): Engine {
    var doc := ApplyRemote(codec, EMPTY_DOC, ReplayBlobs(st));
    SeedBoot(New(docId, codec, doc, st.ackedSeq), Meta(st))
  }

  // ---- local durability ----

  function Capture(s: Sys): Sys {
    var e := s.e;
    if !HasUncaptured(e.codec, e.doc) then s
    else
      var blob := PendingExport(e.codec, e.doc);
      var w := Write(s, AppendLocal(s.st, blob));
      w.(e := e.(lastLocalSeq := w.st.nextLocalSeq,
                 walRows := e.walRows + 1,
                 walBytes := e.walBytes + blob.bytes,
                 doc := MarkPersistedAt(e.doc, OplogVV(e.codec, e.doc))))
  }

  function WriteLocalSnapshot(s: Sys): Sys {
    var w := Write(s, WriteSnapshot(s.st, s.e.lastLocalSeq, SnapshotBlob(s.e.codec, s.e.doc)));
    w.(e := s.e.(walRows := 0, walBytes := 0))
  }

  function SnapshotIfWalExceeds(s: Sys, maxRows: nat, maxBytes: nat): Sys {
    var c := Capture(s);
    if c.e.walRows < (if maxRows < 1 then 1 else maxRows) && c.e.walBytes <= maxBytes then c
    else WriteLocalSnapshot(c)
  }

  function ForceSnapshot(s: Sys): Sys {
    var c := Capture(s);
    if c.e.walRows == 0 then c else WriteLocalSnapshot(c)
  }

  function QueueAck(e: Engine): Engine {
    if e.sentAck < e.durable then Send(e, Ack(e.durable)).(sentAck := e.durable) else e
  }

  function NotifyDurable(s: Sys, seqNo: nat): Sys {
    var clamped := if seqNo < s.e.contig then seqNo else s.e.contig;
    if clamped <= s.e.durable then s
    else
      var w := Write(s, WriteAcked(s.st, clamped));
      w.(e := QueueAck(s.e.(durable := clamped)))
  }

  // ---- transport ----

  function HandleConnected(e: Engine): Engine {
    if e.state != Disconnected then Emit(e, Error("handle_connected called while already connected"))
    else Send(Emit(e.(state := Opening), ConnStateChanged(true)), OpenDoc)
  }

  function HandleDisconnected(e: Engine): Engine {
    if e.state == Disconnected then e else GoDisconnected(e)
  }

  function HandleTimeout(e: Engine): Engine {
    if e.state == Opening then Emit(e, Error("handshake timed out")) else e
  }

  /** One frame leaves for the wire. */
  function PopOutbox(e: Engine): Engine {
    if e.outbox == [] then e else e.(outbox := e.outbox[1..])
  }

  // ---- pushing ----

  /** `id` is the identifier a fresh push would be minted with. */
  function TryStartPush(s: Sys, id: nat): Sys {
    if s.e.state != Idle then s
    else if s.e.inFlight.Some? then SendPush(s)
    else
      var c := Capture(s);
      var e := c.e;
      var delta := ExportSince(e.codec, e.doc, e.known);
      if delta == None then c
      else
        var toVV := OplogVV(e.codec, e.doc);
        var w := Write(c, PutInFlight(c.st, InFlightPush(id, delta.value, e.known, toVV)));
        SendPush(w.(e := e.(inFlight := Some(InFlight(id, delta.value, toVV)))))
  }

  function SendPush(s: Sys): Sys
    requires s.e.inFlight.Some?
  {
    var p := s.e.inFlight.value;
    s.(e := Send(s.e, PushUpdates([PushBlob(p.id, p.payload)])).(state := Pushing))
  }

  function Flush(s: Sys, id: nat): Sys {
    match s.e.state
    case Idle => TryStartPush(s, id)
    case Pushing => s.(e := s.e.(state := PushingDirty))
    case _ => s
  }

  // ---- inbound frames ----

  function Ingest(contig: nat, n: nat): nat {
    if n == contig + 1 then n else contig
  }

  function IngestAll(contig: nat, updates: seq<StoredBlob>): nat {
    if updates == [] then contig
    else Ingest(IngestAll(contig, updates[..|updates| - 1]), updates[|updates| - 1].seqNo)
  }

  function Advance(e: Engine, contig: nat): Engine {
    if e.contig < contig then Emit(e.(contig := contig), FrontierAdvanced(contig)) else e
  }

  function AppendRow(s: Sys, u: StoredBlob): Sys {
    var w := Write(s, AppendRemote(s.st, u.seqNo, u.blob, s.e.known));
    if FindServerSeq(s.st.wal, u.seqNo).Some? then w
    else
      w.(e := s.e.(lastLocalSeq := w.st.nextLocalSeq,
                   walRows := s.e.walRows + 1,
                   walBytes := s.e.walBytes + u.blob.bytes))
  }

  function AppendRows(s: Sys, updates: seq<StoredBlob>): Sys {
    if updates == [] then s
    else AppendRow(AppendRows(s, updates[..|updates| - 1]), updates[|updates| - 1])
  }

  function Blobs(updates: seq<StoredBlob>): (r: seq<Blob>)
    ensures |r| == |updates| && forall i :: 0 <= i < |r| ==> r[i] == updates[i].blob
  {
    seq(|updates|, i requires 0 <= i < |updates| => updates[i].blob)
  }

  /** Import everything and learn it, then mirror each row, then move the
      frontier over the contiguous sequence numbers. */
  function ApplyRemoteUpdates(s: Sys, updates: seq<StoredBlob>): Sys {
    if updates == [] then s
    else
      var c := s.e.codec;
      var blobs := Blobs(updates);
      var e := s.e.(doc := ApplyRemote(c, s.e.doc, blobs), known := s.e.known + BlobRange(c, blobs));
      var a := AppendRows(s.(e := e), updates);
      a.(e := Advance(a.e, IngestAll(a.e.contig, updates)))
  }

  function HandleServerBytes(s: Sys, input: Inbound, id: nat): Sys {
    if s.e.state == Disconnected then s.(e := Emit(s.e, Error("received server bytes while disconnected")))
    else if input.Undecodable? then s.(e := Emit(s.e, Error("decode ServerFrame")))
    else if input.doc != s.e.docId then s.(e := Emit(s.e, Error("frame for another doc")))
    else HandleFrame(s, input.frame, id)
  }

  function HandleFrame(s: Sys, frame: ServerFrame, id: nat): Sys {
    match frame
    case DocOpened(epoch) => s.(e := OnDocOpened(s.e, epoch))
    case DocRejected(reason) => s.(e := GoDisconnected(Emit(s.e, ClosedByServer("doc rejected: " + reason))))
    case DocClosed(reason) => s.(e := GoDisconnected(Emit(s.e, ClosedByServer("doc closed: " + reason))))
    case Presence(accounts) => s.(e := Emit(s.e, PresenceChanged(accounts)))
    case UpdatesBatch(updates, complete) => OnBatch(s, updates, complete, id)
    case UpdatesBroadcast(updates) =>
      if s.e.state == Bootstrapping then s else ApplyRemoteUpdates(s, updates)
    case UpdatesAck(acks) => OnAck(s, acks, id)
    case SnapshotRequired(_) => s.(e := OnSnapshotRequired(s.e))
    case Snapshot(upTo, blob, complete) => OnSnapshot(s, upTo, blob, complete)
    case SnapshotRequest(_, floor, base) => s.(e := OnSnapshotRequest(s.e, floor, base))
  }

  function OnDocOpened(e: Engine, epoch: nat): Engine {
    if e.state != Opening then Emit(e, Error("DocOpened received in unexpected state"))
    else Send(e.(epoch := Some(epoch), state := Pulling), PullUpdates(e.contig))
  }

  function OnBatch(s: Sys, updates: seq<StoredBlob>, complete: bool, id: nat): Sys {
    if s.e.state == Bootstrapping then s.(e := Emit(s.e, Error("UpdatesBatch received during Bootstrapping")))
    else
      var a := ApplyRemoteUpdates(s, updates);
      if complete && a.e.state == Pulling then TryStartPush(Pulled(a), id) else a
  }

  /** The engine once the initial pull completes. */
  function Pulled(a: Sys): Sys {
    a.(e := Emit(a.e.(state := Idle, trace := a.e.trace + [PullDone]), PulledInitial))
  }

  function OnAck(s: Sys, acks: seq<PushAck>, id: nat): Sys {
    var e := s.e;
    if e.state != Pushing && e.state != PushingDirty then
      s.(e := Emit(e, Error("UpdatesAck received in unexpected state")))
    else if e.inFlight == None then
      s.(e := Emit(e, Error("UpdatesAck with no in-flight push")).(state := Idle))
    else if !(|acks| == 1 && acks[0].id == e.inFlight.value.id) then
      s.(e := Emit(e, Error("UpdatesAck mismatch")))
    else TryStartPush(Acked(s, acks[0]), id)
  }

  /** The engine once an ack is accepted, before it looks for the next push. */
  function Acked(s: Sys, ack: PushAck): Sys
    requires s.e.inFlight.Some?
  {
    var p := s.e.inFlight.value;
    var known := s.e.known + p.toVV;
    var w := Write(s, CompletePush(s.st, p.id, known));
    var a := Advance(s.e.(known := known, inFlight := None), Ingest(s.e.contig, ack.seqNo));
    w.(e := Emit(a, Pushed).(state := Idle, trace := a.trace + [PushDone(p.id)]))
  }

  function OnSnapshotRequired(e: Engine): Engine {
    if e.state != Pulling then Emit(e, Error("SnapshotRequired received in unexpected state"))
    else Send(e.(state := Bootstrapping), PullSnapshot)
  }

  function OnSnapshot(s: Sys, upTo: nat, blob: Blob, complete: bool): Sys {
    if s.e.state != Bootstrapping then s.(e := Emit(s.e, Error("Snapshot received in unexpected state")))
    else
      var c := s.e.codec;
      var doc := ApplyRemote(c, s.e.doc, [blob]);
      var e := s.e.(doc := doc, known := s.e.known + BlobRange(c, [blob]));
      if !complete then s.(e := e) else Repull(Checkpoint(s.(e := e)), upTo)
  }

  /** The checkpoint that ends a bootstrap: the version vector, then the
      merged doc in place of the whole log. */
  function Checkpoint(s: Sys): Sys {
    var c := s.e.codec;
    var k := Write(s, WriteKnown(s.st, s.e.known));
    var w := Write(k, WriteSnapshot(k.st, s.e.lastLocalSeq, SnapshotBlob(c, s.e.doc)));
    w.(e := s.e.(doc := MarkPersistedAt(s.e.doc, OplogVV(c, s.e.doc)), walRows := 0, walBytes := 0))
  }

  /** Pull again, from the end of the chain. */
  function Repull(s: Sys, upTo: nat): Sys {
    var f := Advance(s.e, upTo);
    s.(e := Send(f.(state := Pulling), PullUpdates(f.contig)))
  }

  /** A base outside what the server is known to have is declined. */
  function OnSnapshotRequest(e: Engine, floor: nat, base: Option<SnapshotBase>): Engine {
    if base.Some? && !(base.value.vv <= e.known) then
      Emit(e, Error("SnapshotRequest: delta base is outside our server-known frontier; declining"))
    else Send(e, Produced(e, floor, base))
  }

  /** A snapshot of exactly what the server is known to have, or of what it
      has past the base. */
  function Produced(e: Engine, floor: nat, base: Option<SnapshotBase>): (f: ClientFrame)
    ensures f.PushSnapshot?
  {
    match base
    case None => PushSnapshot(e.contig, floor, None, e.known, SnapshotBlobAt(e.codec, e.doc, e.known))
    case Some(b) =>
      PushSnapshot(e.contig, floor, Some(b.seqNo), e.known, DeltaBlobBetween(e.codec, e.doc, b.vv, e.known))
  }

  /** Past the initial pull of the connection. */
  predicate PastPull(state: ConnState) { state == Idle || state == Pushing || state == PushingDirty }

  /** The acks a pushing engine takes for its push. */
  predicate Accepts(e: Engine, acks: seq<PushAck>) {
    && (e.state == Pushing || e.state == PushingDirty) && e.inFlight.Some?
    && |acks| == 1 && acks[0].id == e.inFlight.value.id
  }

  predicate HasUnsyncedOps(e: Engine) {
    e.inFlight.Some? || !(OplogVV(e.codec, e.doc) <= e.known)
  }

  // ---- every call a host can make ----

  datatype Call =
    | Commit(ops: set<Op>)
    | CaptureOps
    | FoldPast(maxRows: nat, maxBytes: nat)
    | FoldNow
    | OnDisk(seqNo: nat)
    | Connected
    | Dropped
    | Tick
    | FlushCall(id: nat)
    | Bytes(input: Inbound, id: nat)
    | Pop

  function Apply(s: Sys, call: Call): Sys {
    match call
    case Commit(ops) => s.(e := s.e.(doc := s.e.doc.(ops := s.e.doc.ops + ops)))
    case CaptureOps => Capture(s)
    case FoldPast(maxRows, maxBytes) => SnapshotIfWalExceeds(s, maxRows, maxBytes)
    case FoldNow => ForceSnapshot(s)
    case OnDisk(seqNo) => NotifyDurable(s, seqNo)
    case Connected => s.(e := HandleConnected(s.e))
    case Dropped => s.(e := HandleDisconnected(s.e))
    case Tick => s.(e := HandleTimeout(s.e))
    case FlushCall(id) => Flush(s, id)
    case Bytes(input, id) => HandleServerBytes(s, input, id)
    case Pop => s.(e := PopOutbox(s.e))
  }

  function Exec(s: Sys, calls: seq<Call>): Sys {
    if calls == [] then s else Apply(Exec(s, calls[..|calls| - 1]), calls[|calls| - 1])
  }
}
