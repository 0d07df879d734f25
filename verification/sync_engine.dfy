/** The engine as the program has it: an object whose methods update its
    fields and call its storage in place. Each method is proved to do what the
    engine's specification says, storage writes in the same order. */
module SyncEngineObject {
  import opened Wrappers
  import opened Operations
  import opened Protocol
  import opened LocalStore
  import opened Documents
  import opened EngineSpec
  import opened MemoryStorage
  import opened FrontierAssertion
  import EngineCoherence

  class SyncEngine {
    const docId: nat
    const codec: Codec
    const storage: MemStorage
    var doc: Doc
    var known: set<Op>
    var inFlight: Option<InFlight>
    var lastLocalSeq: nat
    var walRows: nat
    var walBytes: nat
    var state: ConnState
    var contig: nat
    var epoch: Option<nat>
    var durable: nat
    var sentAck: nat
    var outbox: seq<ClientFrame>
    var events: seq<Event>
    ghost var trace: seq<Mark>

    ghost function Value(): Engine
      reads this
    {
      Engine(docId, codec, doc, known, inFlight, lastLocalSeq, walRows, walBytes, state,
             contig, epoch, durable, sentAck, outbox, events, trace)
    }

    ghost function State(): Sys
      reads this, storage
    {
      Sys(Value(), storage.Contents(), storage.history)
    }

    // ---- boot ----

    constructor (docId: nat, codec: Codec, doc: Doc, acked: nat, storage: MemStorage)
      ensures Value() == New(docId, codec, doc, acked)
      ensures this.storage == storage
    {
      this.docId, this.codec, this.doc, this.storage := docId, codec, doc, storage;
      known, inFlight, lastLocalSeq, walRows, walBytes := {}, None, 0, 0, 0;
      state, contig, epoch, durable, sentAck := Disconnected, acked, None, acked, acked;
      outbox, events, trace := [], [], [];
    }

    method SeedFrom(meta: BootMeta)
      modifies this
      ensures Value() == SeedBoot(old(Value()), meta)
    {
      lastLocalSeq := meta.lastLocalSeq;
      walRows, walBytes := meta.walRows, meta.walBytes;
      known := meta.knownVV;
      if meta.inFlight.Some? {
        var push := meta.inFlight.value;
        inFlight := Some(InFlight(push.id, push.payload, push.toVV));
      }
    }

    // ---- local durability ----

    method CaptureLocalOps() returns (localSeq: Option<nat>)
      modifies this, storage
      ensures State() == Capture(old(State()))
      ensures localSeq == if HasUncaptured(codec, old(doc)) then Some(storage.nextLocalSeq) else None
    {
      if !HasUncaptured(codec, doc) {
        return None;
      }
      var vv := OplogVV(codec, doc);
      var blob := PendingExport(codec, doc);
      var n := storage.AppendLocalWal(blob);
      lastLocalSeq := n;
      walRows := walRows + 1;
      walBytes := walBytes + blob.bytes;
      doc := MarkPersistedAt(doc, vv);
      localSeq := Some(n);
    }

    method FoldWal()
      modifies this, storage
      ensures State() == WriteLocalSnapshot(old(State()))
    {
      storage.PutSnapshot(lastLocalSeq, SnapshotBlob(codec, doc));
      walRows, walBytes := 0, 0;
    }

    method FoldIfWalExceeds(maxRows: nat, maxBytes: nat) returns (written: bool)
      modifies this, storage
      ensures State() == SnapshotIfWalExceeds(old(State()), maxRows, maxBytes)
    {
      var _ := CaptureLocalOps();
      if walRows < (if maxRows < 1 then 1 else maxRows) && walBytes <= maxBytes {
        return false;
      }
      FoldWal();
      written := true;
    }

    method FoldUnlessEmpty() returns (written: bool)
      modifies this, storage
      ensures State() == ForceSnapshot(old(State()))
    {
      var _ := CaptureLocalOps();
      if walRows == 0 {
        return false;
      }
      FoldWal();
      written := true;
    }

    method NotifyOplogDurable(seqNo: nat)
      modifies this, storage
      ensures State() == NotifyDurable(old(State()), seqNo)
      ensures var n := Min(seqNo, old(contig));
              && durable == Max(old(durable), n)
              && storage.ackedSeq == (if old(durable) < n then n else old(storage.ackedSeq))
              && sentAck == (if old(durable) < n then Max(old(sentAck), n) else old(sentAck))
              && outbox == old(outbox) + (if old(durable) < n && old(sentAck) < n then [Ack(n)] else [])
    {
      var clamped := if seqNo < contig then seqNo else contig;
      if durable < clamped {
        durable := clamped;
        storage.PutAckedSeq(clamped);
        QueueAckIfAdvanced();
      }
    }

    method QueueAckIfAdvanced()
      modifies this
      ensures Value() == QueueAck(old(Value()))
    {
      if sentAck < durable {
        Enqueue(Ack(durable));
        sentAck := durable;
      }
    }

    method Enqueue(frame: ClientFrame)
      modifies this`outbox, this`trace
      ensures Value() == Send(old(Value()), frame)
    {
      outbox := outbox + [frame];
      trace := trace + [Sent(frame)];
    }

    // ---- transport ----

    method Connect()
      modifies this
      ensures Value() == HandleConnected(old(Value()))
    {
      if state != Disconnected {
        events := events + [Error("handle_connected called while already connected")];
        return;
      }
      state := Opening;
      events := events + [ConnStateChanged(true)];
      Enqueue(OpenDoc);
    }

    method Disconnect()
      modifies this
      ensures Value() == HandleDisconnected(old(Value()))
    {
      if state == Disconnected {
        return;
      }
      GoOffline();
    }

    method GoOffline()
      modifies this
      ensures Value() == GoDisconnected(old(Value()))
    {
      state := Disconnected;
      outbox, trace := [], [];
      events := events + [ConnStateChanged(false)];
    }

    method Timeout()
      modifies this
      ensures Value() == HandleTimeout(old(Value()))
    {
      if state == Opening {
        events := events + [Error("handshake timed out")];
      }
    }

    method PopFrame() returns (frame: Option<ClientFrame>)
      modifies this
      ensures Value() == PopOutbox(old(Value()))
      ensures frame == if old(outbox) == [] then None else Some(old(outbox)[0])
    {
      if outbox == [] {
        return None;
      }
      frame := Some(outbox[0]);
      outbox := outbox[1..];
    }

    method FlushOps(freshId: nat)
      modifies this, storage
      ensures State() == Flush(old(State()), freshId)
    {
      match state {
        case Idle => StartPush(freshId);
        case Pushing => state := PushingDirty;
        case _ =>
      }
    }

    // ---- inbound ----

    method ServerBytes(input: Inbound, freshId: nat)
      modifies this, storage
      ensures State() == HandleServerBytes(old(State()), input, freshId)
    {
      if state == Disconnected {
        events := events + [Error("received server bytes while disconnected")];
      } else if input.Undecodable? {
        events := events + [Error("decode ServerFrame")];
      } else if input.doc != docId {
        events := events + [Error("frame for another doc")];
      } else {
        ServerFrameIn(input.frame, freshId);
      }
    }

    method ServerFrameIn(frame: ServerFrame, freshId: nat)
      modifies this, storage
      ensures State() == HandleFrame(old(State()), frame, freshId)
    {
      match frame {
        case DocOpened(e) => Opened(e);
        case DocRejected(reason) =>
          events := events + [ClosedByServer("doc rejected: " + reason)];
          GoOffline();
        case DocClosed(reason) =>
          events := events + [ClosedByServer("doc closed: " + reason)];
          GoOffline();
        case Presence(accounts) =>
          events := events + [PresenceChanged(accounts)];
        case UpdatesBatch(updates, complete) => BatchIn(updates, complete, freshId);
        case UpdatesBroadcast(updates) =>
          if state != Bootstrapping {
            ImportUpdates(updates);
          }
        case UpdatesAck(acks) => AckIn(acks, freshId);
        case SnapshotRequired(_) => RequiredIn();
        case Snapshot(upTo, blob, complete) => SnapshotIn(upTo, blob, complete);
        case SnapshotRequest(_, floor, base) => RequestIn(floor, base);
      }
    }

    method Opened(serverEpoch: nat)
      modifies this
      ensures Value() == OnDocOpened(old(Value()), serverEpoch)
    {
      if state != Opening {
        events := events + [Error("DocOpened received in unexpected state")];
        return;
      }
      epoch := Some(serverEpoch);
      state := Pulling;
      Enqueue(PullUpdates(contig));
    }

    method BatchIn(updates: seq<StoredBlob>, complete: bool, freshId: nat)
      modifies this, storage
      ensures State() == OnBatch(old(State()), updates, complete, freshId)
    {
      if state == Bootstrapping {
        events := events + [Error("UpdatesBatch received during Bootstrapping")];
        return;
      }
      ImportUpdates(updates);
      if complete && state == Pulling {
        state := Idle;
        events := events + [PulledInitial];
        trace := trace + [PullDone];
        StartPush(freshId);
      }
    }

    method AckIn(acks: seq<PushAck>, freshId: nat)
      modifies this, storage
      ensures State() == OnAck(old(State()), acks, freshId)
    {
      if state != Pushing && state != PushingDirty {
        events := events + [Error("UpdatesAck received in unexpected state")];
        return;
      }
      if inFlight == None {
        events := events + [Error("UpdatesAck with no in-flight push")];
        state := Idle;
        return;
      }
      if !(|acks| == 1 && acks[0].id == inFlight.value.id) {
        events := events + [Error("UpdatesAck mismatch")];
        return;
      }
      AcceptAck(acks[0]);
      StartPush(freshId);
    }

    method AcceptAck(ack: PushAck)
      requires inFlight.Some?
      modifies this, storage
      ensures State() == Acked(old(State()), ack)
    {
      var push := inFlight.value;
      inFlight := None;
      known := known + push.toVV;
      storage.FinishPush(push.id, known);
      AdvanceTo(ack.seqNo);
      events := events + [Pushed];
      state := Idle;
      trace := trace + [PushDone(push.id)];
    }

    method AdvanceTo(n: nat)
      modifies this
      ensures Value() == Advance(old(Value()), Ingest(old(contig), n))
    {
      var before := contig;
      var _ := IngestSeq(n);
      if before < contig {
        events := events + [FrontierAdvanced(contig)];
      }
    }

    /** `holds` is the debug assertion, which a release build does not check. */
    method IngestSeq(n: nat) returns (holds: bool)
      modifies this`contig
      ensures contig == Ingest(old(contig), n)
      ensures holds <==> !Trips(old(contig), n)
      ensures holds <==> n <= contig
    {
      if n == contig + 1 {
        contig := n;
        return true;
      }
      holds := n <= contig;
    }

    method RequiredIn()
      modifies this
      ensures Value() == OnSnapshotRequired(old(Value()))
    {
      if state != Pulling {
        events := events + [Error("SnapshotRequired received in unexpected state")];
        return;
      }
      state := Bootstrapping;
      Enqueue(PullSnapshot);
    }

    method SnapshotIn(upTo: nat, blob: Blob, complete: bool)
      modifies this, storage
      ensures State() == OnSnapshot(old(State()), upTo, blob, complete)
    {
      if state != Bootstrapping {
        events := events + [Error("Snapshot received in unexpected state")];
        return;
      }
      var imported;
      doc, imported := ApplyRemoteBatch(codec, doc, [blob]);
      known := known + imported;
      if !complete {
        return;
      }
      WriteCheckpoint();
      PullAgain(upTo);
    }

    method WriteCheckpoint()
      modifies this, storage
      ensures State() == Checkpoint(old(State()))
    {
      storage.PutKnownVV(known);
      storage.PutSnapshot(lastLocalSeq, SnapshotBlob(codec, doc));
      doc := MarkPersistedAt(doc, OplogVV(codec, doc));
      walRows, walBytes := 0, 0;
    }

    method PullAgain(upTo: nat)
      modifies this
      ensures State() == Repull(old(State()), upTo)
    {
      if contig < upTo {
        contig := upTo;
        events := events + [FrontierAdvanced(upTo)];
      }
      state := Pulling;
      Enqueue(PullUpdates(contig));
    }

    method RequestIn(floor: nat, base: Option<SnapshotBase>)
      modifies this
      ensures Value() == OnSnapshotRequest(old(Value()), floor, base)
    {
      var from := None;
      var blob;
      match base {
        case None => blob := SnapshotBlobAt(codec, doc, known);
        case Some(b) =>
          if !(b.vv <= known) {
            events := events + [Error("SnapshotRequest: delta base is outside our server-known frontier; declining")];
            return;
          }
          from, blob := Some(b.seqNo), DeltaBlobBetween(codec, doc, b.vv, known);
      }
      Enqueue(PushSnapshot(contig, floor, from, known, blob));
    }

    method ImportUpdates(updates: seq<StoredBlob>)
      modifies this, storage
      ensures State() == ApplyRemoteUpdates(old(State()), updates)
    {
      if updates == [] {
        return;
      }
      var imported;
      doc, imported := ApplyRemoteBatch(codec, doc, Blobs(updates));
      known := known + imported;
      MirrorUpdates(updates);
      var _ := AdvanceOver(updates);
    }

    method AdvanceOver(updates: seq<StoredBlob>) returns (held: bool)
      modifies this
      ensures Value() == Advance(old(Value()), IngestAll(old(contig), updates))
      ensures held <==> !BatchTrips(old(contig), updates)
    {
      var before := contig;
      held := true;
      for i := 0 to |updates|
        invariant contig == IngestAll(before, updates[..i])
        invariant Value() == old(Value()).(contig := contig)
        invariant held <==> forall j :: 0 <= j < i ==> !TripsAt(before, updates, j)
      {
        assert updates[..i + 1][..i] == updates[..i];
        var holds := IngestSeq(updates[i].seqNo);
        assert holds <==> !TripsAt(before, updates, i);
        held := held && holds;
      }
      assert updates[..|updates|] == updates;
      FrontierRises(before, updates, 0, |updates|);
      if before < contig {
        events := events + [FrontierAdvanced(contig)];
      }
    }

    method MirrorUpdates(updates: seq<StoredBlob>)
      modifies this, storage
      ensures State() == AppendRows(old(State()), updates)
    {
      for i := 0 to |updates|
        invariant State() == AppendRows(old(State()), updates[..i])
      {
        assert updates[..i + 1][..i] == updates[..i];
        MirrorUpdate(updates[i]);
      }
      assert updates[..|updates|] == updates;
    }

    method MirrorUpdate(u: StoredBlob)
      modifies this, storage
      ensures State() == AppendRow(old(State()), u)
    {
      var n, inserted := storage.AppendRemoteWal(u.seqNo, u.blob, known);
      if inserted {
        lastLocalSeq := n;
        walRows := walRows + 1;
        walBytes := walBytes + u.blob.bytes;
      }
    }

    // ---- pushing ----

    /** `freshId` is what a fresh push identifier would be generated as. */
    method StartPush(freshId: nat)
      modifies this, storage
      ensures State() == TryStartPush(old(State()), freshId)
    {
      if state != Idle {
        return;
      }
      if inFlight == None {
        var _ := CaptureLocalOps();
        var toVV := OplogVV(codec, doc);
        var delta := ExportSince(codec, doc, known);
        if delta == None {
          return;
        }
        storage.PutInFlightPush(InFlightPush(freshId, delta.value, known, toVV));
        inFlight := Some(InFlight(freshId, delta.value, toVV));
      }
      Enqueue(PushUpdates([PushBlob(inFlight.value.id, inFlight.value.payload)]));
      state := Pushing;
    }
  }

  /** Reconstruct an engine from storage: replay the snapshot and every
      surviving row, then seed the cursors. */
  method BootEngine(docId: nat, codec: Codec, storage: MemStorage) returns (engine: SyncEngine)
    ensures fresh(engine) && engine.storage == storage
    ensures engine.State() == Sys(Boot(docId, codec, storage.Contents()), storage.Contents(), storage.history)
  {
    var meta, replay := storage.Boot();
    var doc, _ := ApplyRemoteBatch(codec, EMPTY_DOC, replay);
    engine := new SyncEngine(docId, codec, doc, meta.ackedSeq, storage);
    engine.SeedFrom(meta);
  }

  /** Whether a stored doc has operations the server has no proof of, decided
      without an engine. */
  method StorageHasUnsyncedOps(codec: Codec, storage: MemStorage) returns (unsynced: bool)
    ensures forall docId :: unsynced == HasUnsyncedOps(Boot(docId, codec, storage.Contents()))
  {
    var meta, replay := storage.Boot();
    var doc, _ := ApplyRemoteBatch(codec, EMPTY_DOC, replay);
    unsynced := meta.inFlight.Some? || !(OplogVV(codec, doc) <= meta.knownVV);
  }
}
