/** Why the host reads every fatal event on the connection it belongs to: an
    engine that says one has queued nothing, so no failing send comes between. */
module EngineCalm {
  import opened Wrappers
  import opened Operations
  import opened Protocol
  import opened LocalStore
  import opened Documents
  import opened EngineSpec
  import opened EngineCoherence
  import opened CallInvariant

  /** An event that makes the host give up the socket, or the doc. */
  predicate Fatal(ev: Event) { ev.Error? || ev.ClosedByServer? }

  ghost predicate Speaks(events: seq<Event>) { exists ev :: ev in events && Fatal(ev) }

  /** Every commit but `late` was flushed, every durable row is acked, and an
      engine that is down has nothing queued. */
  ghost predicate Steady(e: Engine, late: set<Op>) {
    && e.codec.Valid() && NothingWaits(e, late) && HoldsItsPush(e)
    && e.sentAck == e.durable <= e.contig
    && (e.state == Disconnected ==> e.outbox == [] && e.contig == e.durable)
  }

  /** As the host leaves an engine between two turns of its loop. */
  ghost predicate Calm(e: Engine) {
    Steady(e, {}) && e.outbox == [] && e.contig == e.durable && !Speaks(e.events)
  }

  /** What one call may make of a calm engine: if it says something fatal,
      nothing is queued and no row is newly durable. */
  ghost predicate Stirred(r: Engine) {
    Steady(r, {}) && (Speaks(r.events) ==> r.outbox == [] && r.contig == r.durable)
  }

  lemma StaysSilent(events: seq<Event>, ev: Event)
    requires !Speaks(events) && !Fatal(ev)
    ensures !Speaks(events + [ev])
  {}

  // ---- pushes ----

  lemma TryStartPushCalm(s: Sys, id: nat)
    requires s.e.state == Idle
    ensures var r := TryStartPush(s, id).e;
            && HoldsItsPush(r) && r.events == s.e.events && r.contig == s.e.contig
            && r.durable == s.e.durable && r.sentAck == s.e.sentAck && r.state != Disconnected
  {}

  /** With nothing to push, nothing is queued. */
  lemma NothingToPush(s: Sys, id: nat)
    requires s.e.codec.Valid() && NothingWaits(s.e, {})
    ensures Flush(s, id).e.outbox == s.e.outbox
  {
    if s.e.state == Idle {
      BoundLeast(s.e.codec, s.e.doc.ops, s.e.known);
    }
  }

  lemma FlushSteady(s: Sys, id: nat, late: set<Op>)
    requires Steady(s.e, late)
    ensures var r := Flush(s, id).e;
            && Steady(r, {}) && r.events == s.e.events && r.contig == s.e.contig && r.durable == s.e.durable
            && (late == {} ==> r.outbox == s.e.outbox)
  {
    FlushRests(s, id, late);
    if late == {} { NothingToPush(s, id); }
    if s.e.state == Idle { TryStartPushCalm(s, id); }
  }

  lemma FlushCalm(s: Sys, id: nat)
    requires Calm(s.e)
    ensures Calm(Flush(s, id).e)
  {
    FlushSteady(s, id, {});
  }

  // ---- frames ----

  lemma {:induction false} AppendRowsQuiet(s: Sys, updates: seq<StoredBlob>)
    ensures var r := AppendRows(s, updates).e;
            r == s.e.(lastLocalSeq := r.lastLocalSeq, walRows := r.walRows, walBytes := r.walBytes)
  {
    if updates != [] {
      AppendRowsQuiet(s, updates[..|updates| - 1]);
    }
  }

  lemma ApplyRemoteCalm(s: Sys, updates: seq<StoredBlob>)
    requires Calm(s.e) && s.e.state != Disconnected
    ensures var r := ApplyRemoteUpdates(s, updates).e;
            && Steady(r, {}) && !Speaks(r.events) && r.state == s.e.state && r.codec == s.e.codec
  {
    ApplyRemoteRests(s, updates, {});
    if updates != [] {
      var c := s.e.codec;
      var e := s.e.(doc := ApplyRemote(c, s.e.doc, Blobs(updates)), known := s.e.known + BlobRange(c, Blobs(updates)));
      AppendRowsQuiet(s.(e := e), updates);
      StaysSilent(s.e.events, FrontierAdvanced(IngestAll(s.e.contig, updates)));
    }
  }

  lemma BatchCalm(s: Sys, updates: seq<StoredBlob>, complete: bool, id: nat)
    requires Calm(s.e) && s.e.state != Disconnected
    ensures Stirred(OnBatch(s, updates, complete, id).e)
  {
    BatchRests(s, updates, complete, id, {});
    if s.e.state != Bootstrapping {
      ApplyRemoteCalm(s, updates);
      var a := ApplyRemoteUpdates(s, updates);
      BatchCases(s, updates, complete, id);
      if complete && a.e.state == Pulling {
        StaysSilent(a.e.events, PulledInitial);
        TryStartPushCalm(Pulled(a), id);
      }
    }
  }

  lemma AckedQuiet(s: Sys, ack: PushAck)
    requires s.e.inFlight.Some? && !Speaks(s.e.events)
    ensures var r := Acked(s, ack).e;
            && !Speaks(r.events) && s.e.contig <= r.contig && r.durable == s.e.durable && r.sentAck == s.e.sentAck
  {
    var contig := Ingest(s.e.contig, ack.seqNo);
    StaysSilent(s.e.events, FrontierAdvanced(contig));
    StaysSilent(s.e.events + [FrontierAdvanced(contig)], Pushed);
    StaysSilent(s.e.events, Pushed);
  }

  lemma AckCalm(s: Sys, acks: seq<PushAck>, id: nat)
    requires Calm(s.e) && s.e.state != Disconnected
    ensures Stirred(OnAck(s, acks, id).e)
  {
    AckRests(s, acks, id, {});
    if Accepts(s.e, acks) {
      AckAccepted(s, acks, id);
      AckedQuiet(s, acks[0]);
      TryStartPushCalm(Acked(s, acks[0]), id);
    }
  }

  lemma SnapshotCalm(s: Sys, upTo: nat, blob: Blob, complete: bool)
    requires Calm(s.e) && s.e.state != Disconnected
    ensures Stirred(OnSnapshot(s, upTo, blob, complete).e)
  {
    SnapshotRests(s, upTo, blob, complete, {});
    if s.e.state == Bootstrapping {
      StaysSilent(s.e.events, FrontierAdvanced(upTo));
    }
  }

  lemma OpenedCalm(s: Sys, epoch: nat)
    requires Calm(s.e) && s.e.state != Disconnected
    ensures Stirred(OnDocOpened(s.e, epoch))
  {}

  lemma RequiredCalm(s: Sys)
    requires Calm(s.e) && s.e.state != Disconnected
    ensures Stirred(OnSnapshotRequired(s.e))
  {}

  lemma SaysOrSends(e: Engine, r: Engine)
    requires Calm(e) && e.state != Disconnected
    requires r == e.(outbox := r.outbox, events := r.events, trace := r.trace)
    requires r.outbox == e.outbox || r.events == e.events
    ensures Stirred(r)
  {}

  lemma RequestCalm(s: Sys, floor: nat, base: Option<SnapshotBase>)
    requires Calm(s.e) && s.e.state != Disconnected
    ensures Stirred(OnSnapshotRequest(s.e, floor, base))
  {
    var f := Produced(s.e, floor, base);
    SaysOrSends(s.e, Send(s.e, f));
    SaysOrSends(s.e, Emit(s.e, Error("SnapshotRequest: delta base is outside our server-known frontier; declining")));
  }

  lemma FrameCalm(s: Sys, f: ServerFrame, id: nat)
    requires Calm(s.e) && s.e.state != Disconnected
    ensures Stirred(HandleFrame(s, f, id).e)
  {
    match f {
      case UpdatesBatch(updates, complete) => BatchCalm(s, updates, complete, id);
      case UpdatesBroadcast(updates) => ApplyRemoteCalm(s, updates);
      case UpdatesAck(acks) => AckCalm(s, acks, id);
      case Snapshot(upTo, blob, complete) => SnapshotCalm(s, upTo, blob, complete);
      case DocOpened(epoch) => OpenedCalm(s, epoch);
      case SnapshotRequired(_) => RequiredCalm(s);
      case SnapshotRequest(_, floor, base) => RequestCalm(s, floor, base);
      case Presence(accounts) => StaysSilent(s.e.events, PresenceChanged(accounts));
      case DocRejected(_) =>
      case DocClosed(_) =>
    }
  }

  /** Whatever comes off the wire: a fatal event and a queued frame never come
      of the same bytes. */
  lemma BytesCalm(s: Sys, input: Inbound, id: nat)
    requires Calm(s.e)
    ensures Stirred(HandleServerBytes(s, input, id).e)
  {
    if s.e.state != Disconnected && input.Frame? && input.doc == s.e.docId {
      FrameCalm(s, input.frame, id);
    }
  }

  // ---- the host's own calls ----

  lemma NotifySteady(s: Sys, late: set<Op>)
    requires Steady(s.e, late)
    ensures var r := NotifyDurable(s, s.e.contig).e;
            && Steady(r, late) && r.contig == r.durable == s.e.contig && r.events == s.e.events
            && (s.e.contig == s.e.durable ==> r.outbox == s.e.outbox)
  {}

  lemma FoldSteady(s: Sys, maxRows: nat, maxBytes: nat, late: set<Op>)
    requires Steady(s.e, late)
    ensures var r := SnapshotIfWalExceeds(s, maxRows, maxBytes).e;
            && Steady(r, late) && r.contig == s.e.contig && r.durable == s.e.durable
            && r.events == s.e.events && r.outbox == s.e.outbox
  {}

  lemma CaptureSteady(s: Sys, late: set<Op>)
    requires Steady(s.e, late)
    ensures var r := Capture(s).e;
            && Steady(r, late) && r.contig == s.e.contig && r.durable == s.e.durable
            && r.events == s.e.events && r.outbox == s.e.outbox
  {}

  lemma ConnectSteady(e: Engine)
    requires Calm(e) && e.state == Disconnected
    ensures var r := HandleConnected(e);
            Steady(r, {}) && r.contig == r.durable && !Speaks(r.events)
  {
    StaysSilent(e.events, ConnStateChanged(true));
  }

  lemma DropCalm(e: Engine)
    requires Steady(e, {}) && e.contig == e.durable && !Speaks(e.events)
    ensures Calm(HandleDisconnected(e))
  {
    StaysSilent(e.events, ConnStateChanged(false));
  }

  lemma TimeoutSteady(e: Engine)
    requires Calm(e)
    ensures Steady(HandleTimeout(e), {}) && HandleTimeout(e).outbox == []
        && HandleTimeout(e).contig == HandleTimeout(e).durable
  {}

  /** An engine as it boots. */
  lemma BootIsCalm(docId: nat, c: Codec, st: Store)
    requires c.Valid() && Closed(st.knownVV) && (st.inFlight.Some? ==> Closed(st.inFlight.value.toVV))
    ensures Calm(Boot(docId, c, st))
  {}
}
