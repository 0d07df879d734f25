/** What the engine's fields always have in common with its storage, and what
    it never leaves unsent when it comes to rest. */
module EngineCoherence {
  import opened Wrappers
  import opened Operations
  import opened Protocol
  import opened LocalStore
  import opened Documents
  import opened EngineSpec
  import opened EngineDiscipline

  /** The replay statistics and the local counter equal the storage's own. */
  ghost predicate StatsAgree(e: Engine, st: Store) {
    && Ordered(st)
    && e.lastLocalSeq == st.nextLocalSeq
    && e.walRows == |st.wal|
    && e.walBytes == WalBytes(st.wal)
  }

  /** The in-memory push and the durable record are the same push. */
  ghost predicate PushAgrees(inFlight: Option<InFlight>, durable: Option<InFlightPush>) {
    match durable
    case None => inFlight == None
    case Some(p) => inFlight == Some(InFlight(p.id, p.payload, p.toVV))
  }

  ghost predicate CursorsAgree(e: Engine, st: Store) {
    e.sentAck <= e.durable <= e.contig && st.ackedSeq == e.durable
  }

  ghost predicate Coherent(s: Sys) {
    && StatsAgree(s.e, s.st)
    && PushAgrees(s.e.inFlight, s.st.inFlight)
    && CursorsAgree(s.e, s.st)
    && s.st.knownVV <= s.e.known
  }

  lemma BootIsCoherent(docId: nat, c: Codec, st: Store, history: seq<Store>)
    requires Ordered(st)
    ensures Coherent(Sys(Boot(docId, c, st), st, history))
  {}

  lemma CaptureCoherent(s: Sys)
    requires Coherent(s)
    ensures Coherent(Capture(s))
    ensures Capture(s).e.known == s.e.known && Capture(s).st.knownVV == s.st.knownVV
  {
    if HasUncaptured(s.e.codec, s.e.doc) {
      WalOpsAppend(s.st.wal, WalRow(s.st.nextLocalSeq + 1, None, PendingExport(s.e.codec, s.e.doc)));
    }
  }

  lemma FoldCoherent(s: Sys)
    requires Coherent(s)
    ensures Coherent(WriteLocalSnapshot(s)) && WriteLocalSnapshot(s).st.wal == []
  {
    RetainedNothing(s.st.wal, s.e.lastLocalSeq);
  }

  lemma SendPushCoherent(s: Sys)
    requires Coherent(s) && s.e.inFlight.Some?
    ensures Coherent(SendPush(s))
  {}

  lemma TryStartPushCoherent(s: Sys, id: nat)
    requires Coherent(s)
    ensures Coherent(TryStartPush(s, id))
  {
    if s.e.state == Idle {
      if s.e.inFlight.Some? {
        SendPushCoherent(s);
      } else {
        CaptureCoherent(s);
        var c := Capture(s);
        var delta := ExportSince(c.e.codec, c.e.doc, c.e.known);
        if delta.Some? {
          var toVV := OplogVV(c.e.codec, c.e.doc);
          var w := Write(c, PutInFlight(c.st, InFlightPush(id, delta.value, c.e.known, toVV)));
          SendPushCoherent(w.(e := c.e.(inFlight := Some(InFlight(id, delta.value, toVV)))));
        }
      }
    }
  }

  lemma AppendRowCoherent(s: Sys, u: StoredBlob)
    requires Coherent(s)
    ensures Coherent(AppendRow(s, u))
  {
    if FindServerSeq(s.st.wal, u.seqNo) == None {
      WalOpsAppend(s.st.wal, WalRow(s.st.nextLocalSeq + 1, Some(u.seqNo), u.blob));
    }
  }

  lemma {:induction false} AppendRowsCoherent(s: Sys, updates: seq<StoredBlob>)
    requires Coherent(s)
    ensures Coherent(AppendRows(s, updates))
  {
    if updates != [] {
      AppendRowsCoherent(s, updates[..|updates| - 1]);
      AppendRowCoherent(AppendRows(s, updates[..|updates| - 1]), updates[|updates| - 1]);
    }
  }

  lemma ApplyRemoteCoherent(s: Sys, updates: seq<StoredBlob>)
    requires Coherent(s)
    ensures Coherent(ApplyRemoteUpdates(s, updates))
  {
    if updates != [] {
      var c := s.e.codec;
      var e := s.e.(doc := ApplyRemote(c, s.e.doc, Blobs(updates)), known := s.e.known + BlobRange(c, Blobs(updates)));
      AppendRowsCoherent(s.(e := e), updates);
    }
  }

  lemma AckCoherent(s: Sys, acks: seq<PushAck>, id: nat)
    requires Coherent(s)
    ensures Coherent(OnAck(s, acks, id))
  {
    var e := s.e;
    if (e.state == Pushing || e.state == PushingDirty) && e.inFlight.Some? && |acks| == 1
        && acks[0].id == e.inFlight.value.id {
      assert Coherent(Acked(s, acks[0]));
      TryStartPushCoherent(Acked(s, acks[0]), id);
    }
  }

  lemma BatchCoherent(s: Sys, updates: seq<StoredBlob>, complete: bool, id: nat)
    requires Coherent(s)
    ensures Coherent(OnBatch(s, updates, complete, id))
  {
    if s.e.state != Bootstrapping {
      ApplyRemoteCoherent(s, updates);
      var a := ApplyRemoteUpdates(s, updates);
      if complete && a.e.state == Pulling {
        TryStartPushCoherent(Pulled(a), id);
      }
    }
  }

  lemma SnapshotCoherent(s: Sys, upTo: nat, blob: Blob, complete: bool)
    requires Coherent(s)
    ensures Coherent(OnSnapshot(s, upTo, blob, complete))
  {
    if s.e.state == Bootstrapping && complete {
      RetainedNothing(s.st.wal, s.e.lastLocalSeq);
    }
  }

  /** Differs only in what the connection is up to. */
  ghost predicate Quiet(a: Engine, b: Engine) {
    b == a.(state := b.state, epoch := b.epoch, outbox := b.outbox, events := b.events, trace := b.trace)
  }

  predicate QuietFrame(frame: ServerFrame) {
    !(frame.UpdatesBatch? || frame.UpdatesBroadcast? || frame.UpdatesAck? || frame.Snapshot?)
  }

  /** Frames that only move the connection along. */
  lemma QuietFrames(s: Sys, frame: ServerFrame, id: nat)
    requires QuietFrame(frame)
    ensures var r := HandleFrame(s, frame, id);
            r.st == s.st && r.history == s.history && Quiet(s.e, r.e)
    ensures HandleFrame(s, frame, id).e.state in {s.e.state, Disconnected, Pulling, Bootstrapping}
  {}

  lemma QuietCoherent(s: Sys, r: Sys)
    requires Coherent(s) && r.st == s.st && Quiet(s.e, r.e)
    ensures Coherent(r)
  {}

  lemma FrameCoherent(s: Sys, frame: ServerFrame, id: nat)
    requires Coherent(s)
    ensures Coherent(HandleFrame(s, frame, id))
  {
    if QuietFrame(frame) {
      QuietFrames(s, frame, id);
      QuietCoherent(s, HandleFrame(s, frame, id));
    } else {
      NoisyCoherent(s, frame, id);
    }
  }

  lemma NoisyCoherent(s: Sys, frame: ServerFrame, id: nat)
    requires Coherent(s) && !QuietFrame(frame)
    ensures Coherent(HandleFrame(s, frame, id))
  {
    match frame {
      case UpdatesBatch(updates, complete) => BatchCoherent(s, updates, complete, id);
      case UpdatesBroadcast(updates) => ApplyRemoteCoherent(s, updates);
      case UpdatesAck(acks) => AckCoherent(s, acks, id);
      case Snapshot(upTo, blob, complete) => SnapshotCoherent(s, upTo, blob, complete);
    }
  }

  lemma BytesCoherent(s: Sys, input: Inbound, id: nat)
    requires Coherent(s)
    ensures Coherent(HandleServerBytes(s, input, id))
  {
    if s.e.state != Disconnected && input.Frame? && input.doc == s.e.docId {
      FrameCoherent(s, input.frame, id);
    } else {
      QuietCoherent(s, HandleServerBytes(s, input, id));
    }
  }

  lemma ConnectionCoherent(s: Sys)
    requires Coherent(s)
    ensures Coherent(s.(e := HandleConnected(s.e))) && Coherent(s.(e := HandleDisconnected(s.e)))
    ensures Coherent(s.(e := HandleTimeout(s.e))) && Coherent(s.(e := PopOutbox(s.e)))
  {}

  lemma NotifyCoherent(s: Sys, seqNo: nat)
    requires Coherent(s)
    ensures Coherent(NotifyDurable(s, seqNo))
  {}

  lemma FlushCoherent(s: Sys, id: nat)
    requires Coherent(s)
    ensures Coherent(Flush(s, id))
  {
    TryStartPushCoherent(s, id);
  }

  lemma FoldPastCoherent(s: Sys, maxRows: nat, maxBytes: nat)
    requires Coherent(s)
    ensures Coherent(SnapshotIfWalExceeds(s, maxRows, maxBytes)) && Coherent(ForceSnapshot(s))
  {
    CaptureCoherent(s);
    FoldCoherent(Capture(s));
  }

  /** Every call keeps the engine and its storage in agreement. */
  lemma CallCoherent(s: Sys, call: Call)
    requires Coherent(s)
    ensures Coherent(Apply(s, call))
  {
    match call {
      case CaptureOps => CaptureCoherent(s);
      case FoldPast(maxRows, maxBytes) => FoldPastCoherent(s, maxRows, maxBytes);
      case FoldNow => FoldPastCoherent(s, 0, 0);
      case FlushCall(id) => FlushCoherent(s, id);
      case Bytes(input, id) => BytesCoherent(s, input, id);
      case OnDisk(seqNo) => NotifyCoherent(s, seqNo);
      case Commit(_) =>
      case Connected => ConnectionCoherent(s);
      case Dropped => ConnectionCoherent(s);
      case Tick => ConnectionCoherent(s);
      case Pop => ConnectionCoherent(s);
    }
  }

  lemma {:induction false} RunCoherent(s: Sys, calls: seq<Call>)
    requires Coherent(s)
    ensures Coherent(Exec(s, calls))
  {
    if calls != [] {
      RunCoherent(s, calls[..|calls| - 1]);
      CallCoherent(Exec(s, calls[..|calls| - 1]), calls[|calls| - 1]);
    }
  }

  /** Bounded replay: after a fold past `maxRows` and `maxBytes`, at any point
      of any run, a boot has fewer than `maxRows` rows to replay and at most
      `maxBytes` of them. */
  lemma ReplayIsBounded(s: Sys, calls: seq<Call>, maxRows: nat, maxBytes: nat)
    requires Coherent(s) && 1 <= maxRows
    ensures var st := SnapshotIfWalExceeds(Exec(s, calls), maxRows, maxBytes).st;
            |st.wal| < maxRows && WalBytes(st.wal) <= maxBytes
  {
    RunCoherent(s, calls);
    var r := Exec(s, calls);
    CaptureCoherent(r);
    FoldCoherent(Capture(r));
  }

  // ---- no lost wakeup ----

  /** The operations committed since the engine was last told to flush. */
  function Unflushed(calls: seq<Call>): set<Op> {
    if calls == [] then {}
    else
      match calls[|calls| - 1]
      case Commit(ops) => Unflushed(calls[..|calls| - 1]) + ops
      case FlushCall(_) => {}
      case _ => Unflushed(calls[..|calls| - 1])
  }

  /** At rest in `Idle`, the server has everything but `late`. The version
      vectors the engine holds are version vectors: closed sets. */
  ghost predicate NothingWaits(e: Engine, late: set<Op>) {
    && (e.state == Idle ==> e.doc.ops <= e.known + late && e.inFlight == None)
    && Closed(e.known)
    && (e.inFlight.Some? ==> Closed(e.inFlight.value.toVV))
  }

  lemma TryStartPushRests(s: Sys, id: nat)
    requires s.e.codec.Valid() && s.e.state == Idle
    requires Closed(s.e.known) && (s.e.inFlight.Some? ==> Closed(s.e.inFlight.value.toVV))
    ensures NothingWaits(TryStartPush(s, id).e, {})
    ensures TryStartPush(s, id).e.codec == s.e.codec
  {
    assert s.e.codec.Bounded(s.e.doc.ops);
  }

  lemma {:induction false} AppendRowsDoc(s: Sys, updates: seq<StoredBlob>)
    ensures var r := AppendRows(s, updates).e;
            r.doc == s.e.doc && r.known == s.e.known && r.codec == s.e.codec
            && r.state == s.e.state && r.inFlight == s.e.inFlight && r.contig == s.e.contig
  {
    if updates != [] {
      AppendRowsDoc(s, updates[..|updates| - 1]);
    }
  }

  lemma ApplyRemoteRests(s: Sys, updates: seq<StoredBlob>, late: set<Op>)
    requires s.e.codec.Valid() && NothingWaits(s.e, late)
    ensures var r := ApplyRemoteUpdates(s, updates).e;
            NothingWaits(r, late) && r.codec == s.e.codec && r.state == s.e.state
  {
    if updates != [] {
      var c := s.e.codec;
      var e := s.e.(doc := ApplyRemote(c, s.e.doc, Blobs(updates)), known := s.e.known + BlobRange(c, Blobs(updates)));
      AppendRowsDoc(s.(e := e), updates);
      RangeCovers(c, Blobs(updates));
    }
  }

  lemma BatchRests(s: Sys, updates: seq<StoredBlob>, complete: bool, id: nat, late: set<Op>)
    requires s.e.codec.Valid() && NothingWaits(s.e, late)
    ensures NothingWaits(OnBatch(s, updates, complete, id).e, late)
    ensures OnBatch(s, updates, complete, id).e.codec == s.e.codec
  {
    if s.e.state != Bootstrapping {
      ApplyRemoteRests(s, updates, late);
      var a := ApplyRemoteUpdates(s, updates);
      if complete && a.e.state == Pulling {
        TryStartPushRests(Pulled(a), id);
      }
    }
  }

  lemma AckRests(s: Sys, acks: seq<PushAck>, id: nat, late: set<Op>)
    requires s.e.codec.Valid() && NothingWaits(s.e, late)
    requires s.e.state == Pushing || s.e.state == PushingDirty ==> s.e.inFlight.Some?
    ensures NothingWaits(OnAck(s, acks, id).e, late)
    ensures OnAck(s, acks, id).e.codec == s.e.codec
  {
    var e := s.e;
    if (e.state == Pushing || e.state == PushingDirty) && |acks| == 1 && acks[0].id == e.inFlight.value.id {
      TryStartPushRests(Acked(s, acks[0]), id);
    }
  }

  ghost predicate HoldsItsPush(e: Engine) {
    e.state == Pushing || e.state == PushingDirty ==> e.inFlight.Some?
  }

  lemma SnapshotRests(s: Sys, upTo: nat, blob: Blob, complete: bool, late: set<Op>)
    requires s.e.codec.Valid() && NothingWaits(s.e, late)
    ensures NothingWaits(OnSnapshot(s, upTo, blob, complete).e, late)
    ensures OnSnapshot(s, upTo, blob, complete).e.codec == s.e.codec
  {
    RangeCovers(s.e.codec, [blob]);
  }

  lemma FrameRests(s: Sys, frame: ServerFrame, id: nat, late: set<Op>)
    requires s.e.codec.Valid() && NothingWaits(s.e, late) && HoldsItsPush(s.e)
    ensures NothingWaits(HandleFrame(s, frame, id).e, late)
    ensures HandleFrame(s, frame, id).e.codec == s.e.codec
  {
    if QuietFrame(frame) {
      QuietFrames(s, frame, id);
    } else {
      match frame {
        case UpdatesBatch(updates, complete) => BatchRests(s, updates, complete, id, late);
        case UpdatesBroadcast(updates) => ApplyRemoteRests(s, updates, late);
        case UpdatesAck(acks) => AckRests(s, acks, id, late);
        case Snapshot(upTo, blob, complete) => SnapshotRests(s, upTo, blob, complete, late);
      }
    }
  }

  lemma BytesRest(s: Sys, input: Inbound, id: nat, late: set<Op>)
    requires s.e.codec.Valid() && NothingWaits(s.e, late) && HoldsItsPush(s.e)
    ensures NothingWaits(HandleServerBytes(s, input, id).e, late)
    ensures HandleServerBytes(s, input, id).e.codec == s.e.codec
  {
    if s.e.state != Disconnected && input.Frame? && input.doc == s.e.docId {
      FrameRests(s, input.frame, id, late);
    }
  }

  lemma FlushRests(s: Sys, id: nat, late: set<Op>)
    requires s.e.codec.Valid() && NothingWaits(s.e, late)
    ensures NothingWaits(Flush(s, id).e, {}) && Flush(s, id).e.codec == s.e.codec
  {
    if s.e.state == Idle { TryStartPushRests(s, id); }
  }

  lemma CallRests(s: Sys, call: Call, late: set<Op>)
    requires s.e.codec.Valid() && NothingWaits(s.e, late) && HoldsItsPush(s.e)
    ensures NothingWaits(Apply(s, call).e,
                         match call case Commit(ops) => late + ops case FlushCall(_) => {} case _ => late)
    ensures Apply(s, call).e.codec == s.e.codec
  {
    match call {
      case FlushCall(id) => FlushRests(s, id, late);
      case Bytes(input, id) => BytesRest(s, input, id, late);
      case Commit(_) =>
      case CaptureOps => StorageRests(s, call, late);
      case FoldPast(_, _) => StorageRests(s, call, late);
      case FoldNow => StorageRests(s, call, late);
      case OnDisk(_) =>
      case Connected =>
      case Dropped =>
      case Tick =>
      case Pop =>
    }
  }

  lemma StorageRests(s: Sys, call: Call, late: set<Op>)
    requires NothingWaits(s.e, late) && (call.CaptureOps? || call.FoldPast? || call.FoldNow?)
    ensures NothingWaits(Apply(s, call).e, late) && Apply(s, call).e.codec == s.e.codec
  {}

  /** No lost wakeup: in any run of any calls, whenever the engine rests in
      `Idle` the server is known to have the whole doc, but for what was
      committed since the last flush. */
  lemma {:induction false} NoLostWakeup(s: Sys, calls: seq<Call>)
    requires s.e.codec.Valid() && s.e.state == Disconnected && Disciplined(s.e) && NothingWaits(s.e, {})
    ensures NothingWaits(Exec(s, calls).e, Unflushed(calls))
    ensures Exec(s, calls).e.codec == s.e.codec
  {
    if calls != [] {
      var before := calls[..|calls| - 1];
      NoLostWakeup(s, before);
      RunKeepsDiscipline(s, before);
      CallRests(Exec(s, before), calls[|calls| - 1], Unflushed(before));
    }
  }

  /** In particular, after a run with every commit flushed, an idle engine
      has nothing unsynced. */
  lemma IdleMeansSynced(s: Sys, calls: seq<Call>)
    requires s.e.codec.Valid() && s.e.state == Disconnected && Disciplined(s.e) && NothingWaits(s.e, {})
    requires Unflushed(calls) == {} && Exec(s, calls).e.state == Idle
    ensures !HasUnsyncedOps(Exec(s, calls).e)
  {
    NoLostWakeup(s, calls);
    var e := Exec(s, calls).e;
    BoundLeast(e.codec, e.doc.ops, e.known);
  }
}
