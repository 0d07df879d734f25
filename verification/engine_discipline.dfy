/** What one engine says on one connection, whatever the server answers. */
module EngineDiscipline {
  import opened Wrappers
  import opened Operations
  import opened Protocol
  import opened LocalStore
  import opened Documents
  import opened EngineSpec

  /** Where a connection stands, read off what the engine has done on it. */
  datatype Phase = Start | AwaitOpen | Catching | Booting | Ready | Outstanding(id: nat) | Broken

  function Next(p: Phase, m: Mark): Phase {
    match (p, m)
    case (Start, Sent(Ack(_))) => Start
    case (Start, Sent(OpenDoc)) => AwaitOpen
    case (AwaitOpen, Sent(PullUpdates(_))) => Catching
    case (Catching, Sent(PullSnapshot)) => Booting
    case (Booting, Sent(PullUpdates(_))) => Catching
    case (Catching, PullDone) => Ready
    case (Ready, Sent(PushUpdates(updates))) => if |updates| == 1 then Outstanding(updates[0].id) else Broken
    case (Outstanding(id), PushDone(acked)) => if id == acked then Ready else Broken
    case (Broken, _) => Broken
    case (Start, _) => Broken
    case (_, Sent(Ack(_))) => p
    case (_, Sent(PushSnapshot(_, _, _, _, _))) => p
    case (_, _) => Broken
  }

  function Walk(trace: seq<Mark>): Phase {
    if trace == [] then Start else Next(Walk(trace[..|trace| - 1]), trace[|trace| - 1])
  }

  lemma WalkAppend(trace: seq<Mark>, m: Mark)
    ensures Walk(trace + [m]) == Next(Walk(trace), m)
  {
    assert (trace + [m])[..|trace|] == trace;
  }

  function Frames(trace: seq<Mark>): seq<ClientFrame> {
    if trace == [] then []
    else
      var rest := Frames(trace[..|trace| - 1]);
      if trace[|trace| - 1].Sent? then rest + [trace[|trace| - 1].frame] else rest
  }

  lemma FramesAppend(trace: seq<Mark>, m: Mark)
    ensures Frames(trace + [m]) == Frames(trace) + (if m.Sent? then [m.frame] else [])
  {
    assert (trace + [m])[..|trace|] == trace;
  }

  /** The state an engine must be in for a trace that far. */
  function PhaseOf(e: Engine): Phase {
    match e.state
    case Disconnected => Start
    case Opening => AwaitOpen
    case Pulling => Catching
    case Bootstrapping => Booting
    case Idle => Ready
    case Pushing => if e.inFlight.Some? then Outstanding(e.inFlight.value.id) else Broken
    case PushingDirty => if e.inFlight.Some? then Outstanding(e.inFlight.value.id) else Broken
  }

  /** The frames still queued are the last ones sent. */
  ghost predicate Queued(e: Engine) {
    |e.outbox| <= |Frames(e.trace)| && e.outbox == Frames(e.trace)[|Frames(e.trace)| - |e.outbox|..]
  }

  ghost predicate Disciplined(e: Engine) {
    && Walk(e.trace) == PhaseOf(e) != Broken
    && Queued(e)
    && (e.state == Idle ==> e.inFlight == None)
  }

  /** Changes nothing the discipline is about. */
  ghost predicate SameTalk(a: Engine, b: Engine) {
    a.state == b.state && a.inFlight == b.inFlight && a.outbox == b.outbox && a.trace == b.trace
  }

  lemma SendKeeps(e: Engine, frame: ClientFrame, r: Engine)
    requires Queued(e)
    requires r.trace == e.trace + [Sent(frame)] && r.outbox == e.outbox + [frame]
    ensures Queued(r) && Walk(r.trace) == Next(Walk(e.trace), Sent(frame))
  {
    WalkAppend(e.trace, Sent(frame));
    FramesAppend(e.trace, Sent(frame));
  }

  lemma MarkKeeps(e: Engine, m: Mark, r: Engine)
    requires Queued(e) && !m.Sent?
    requires r.trace == e.trace + [m] && r.outbox == e.outbox
    ensures Queued(r) && Walk(r.trace) == Next(Walk(e.trace), m)
  {
    WalkAppend(e.trace, m);
    FramesAppend(e.trace, m);
  }

  lemma {:induction false} AppendRowsTalk(s: Sys, updates: seq<StoredBlob>)
    ensures SameTalk(s.e, AppendRows(s, updates).e)
    ensures AppendRows(s, updates).e.contig == s.e.contig
    ensures AppendRows(s, updates).e.durable == s.e.durable && AppendRows(s, updates).e.sentAck == s.e.sentAck
    ensures AppendRows(s, updates).e.docId == s.e.docId
  {
    if updates != [] {
      AppendRowsTalk(s, updates[..|updates| - 1]);
    }
  }

  lemma ApplyRemoteTalk(s: Sys, updates: seq<StoredBlob>)
    ensures SameTalk(s.e, ApplyRemoteUpdates(s, updates).e)
  {
    if updates != [] {
      var c := s.e.codec;
      var e := s.e.(doc := ApplyRemote(c, s.e.doc, Blobs(updates)), known := s.e.known + BlobRange(c, Blobs(updates)));
      AppendRowsTalk(s.(e := e), updates);
    }
  }

  lemma SendPushKeeps(s: Sys)
    requires s.e.state == Idle && s.e.inFlight.Some?
    requires Queued(s.e) && Walk(s.e.trace) == Ready
    ensures Disciplined(SendPush(s).e)
  {
    var p := s.e.inFlight.value;
    SendKeeps(s.e, PushUpdates([PushBlob(p.id, p.payload)]), SendPush(s).e);
  }

  lemma TryStartPushKeeps(s: Sys, id: nat)
    requires s.e.state == Idle && Queued(s.e) && Walk(s.e.trace) == Ready
    ensures Disciplined(TryStartPush(s, id).e)
  {
    if s.e.inFlight.Some? {
      SendPushKeeps(s);
    } else {
      var c := Capture(s);
      assert SameTalk(s.e, c.e);
      var delta := ExportSince(c.e.codec, c.e.doc, c.e.known);
      if delta.Some? {
        var toVV := OplogVV(c.e.codec, c.e.doc);
        var w := Write(c, PutInFlight(c.st, InFlightPush(id, delta.value, c.e.known, toVV)));
        SendPushKeeps(w.(e := c.e.(inFlight := Some(InFlight(id, delta.value, toVV)))));
      }
    }
  }

  lemma BatchKeeps(s: Sys, updates: seq<StoredBlob>, complete: bool, id: nat)
    requires Disciplined(s.e)
    ensures Disciplined(OnBatch(s, updates, complete, id).e)
  {
    if s.e.state != Bootstrapping {
      ApplyRemoteTalk(s, updates);
      var a := ApplyRemoteUpdates(s, updates);
      if complete && a.e.state == Pulling {
        MarkKeeps(a.e, PullDone, Pulled(a).e);
        TryStartPushKeeps(Pulled(a), id);
      }
    }
  }

  lemma AckKeeps(s: Sys, acks: seq<PushAck>, id: nat)
    requires Disciplined(s.e)
    ensures Disciplined(OnAck(s, acks, id).e)
  {
    var e := s.e;
    if (e.state == Pushing || e.state == PushingDirty) && |acks| == 1 && acks[0].id == e.inFlight.value.id {
      MarkKeeps(e, PushDone(e.inFlight.value.id), Acked(s, acks[0]).e);
      TryStartPushKeeps(Acked(s, acks[0]), id);
    }
  }

  lemma SnapshotKeeps(s: Sys, upTo: nat, blob: Blob, complete: bool)
    requires Disciplined(s.e)
    ensures Disciplined(OnSnapshot(s, upTo, blob, complete).e)
  {
    if s.e.state == Bootstrapping && complete {
      var r := OnSnapshot(s, upTo, blob, complete).e;
      SendKeeps(s.e, PullUpdates(r.contig), r);
    }
  }

  lemma SnapshotPushStays(p: Phase, frame: ClientFrame)
    requires frame.PushSnapshot? && p != Start
    ensures Next(p, Sent(frame)) == p
  {}

  lemma RequestKeeps(e: Engine, floor: nat, base: Option<SnapshotBase>)
    requires Disciplined(e) && e.state != Disconnected
    ensures Disciplined(OnSnapshotRequest(e, floor, base))
  {
    if !(base.Some? && !(base.value.vv <= e.known)) {
      SnapshotPushStays(Walk(e.trace), Produced(e, floor, base));
      SendKeeps(e, Produced(e, floor, base), OnSnapshotRequest(e, floor, base));
    }
  }

  lemma OpenedKeeps(e: Engine, epoch: nat)
    requires Disciplined(e)
    ensures Disciplined(OnDocOpened(e, epoch))
  {
    if e.state == Opening {
      SendKeeps(e, PullUpdates(e.contig), OnDocOpened(e, epoch));
    }
  }

  lemma RequiredKeeps(e: Engine)
    requires Disciplined(e)
    ensures Disciplined(OnSnapshotRequired(e))
  {
    if e.state == Pulling {
      SendKeeps(e, PullSnapshot, OnSnapshotRequired(e));
    }
  }

  lemma FrameKeeps(s: Sys, frame: ServerFrame, id: nat)
    requires Disciplined(s.e) && s.e.state != Disconnected
    ensures Disciplined(HandleFrame(s, frame, id).e)
  {
    match frame {
      case DocOpened(epoch) => OpenedKeeps(s.e, epoch);
      case DocRejected(_) =>
      case DocClosed(_) =>
      case Presence(_) =>
      case UpdatesBatch(updates, complete) => BatchKeeps(s, updates, complete, id);
      case UpdatesBroadcast(updates) => ApplyRemoteTalk(s, updates);
      case UpdatesAck(acks) => AckKeeps(s, acks, id);
      case SnapshotRequired(_) => RequiredKeeps(s.e);
      case Snapshot(upTo, blob, complete) => SnapshotKeeps(s, upTo, blob, complete);
      case SnapshotRequest(_, floor, base) => RequestKeeps(s.e, floor, base);
    }
  }

  lemma BytesKeep(s: Sys, input: Inbound, id: nat)
    requires Disciplined(s.e)
    ensures Disciplined(HandleServerBytes(s, input, id).e)
  {
    if s.e.state != Disconnected && input.Frame? && input.doc == s.e.docId {
      FrameKeeps(s, input.frame, id);
    }
  }

  lemma NotifyKeeps(s: Sys, seqNo: nat)
    requires Disciplined(s.e)
    ensures Disciplined(NotifyDurable(s, seqNo).e)
  {
    var r := NotifyDurable(s, seqNo).e;
    if r.trace != s.e.trace {
      SendKeeps(s.e, Ack(r.durable), r);
    }
  }

  lemma ConnectKeeps(e: Engine)
    requires Disciplined(e)
    ensures Disciplined(HandleConnected(e))
  {
    if e.state == Disconnected {
      SendKeeps(e, OpenDoc, HandleConnected(e));
    }
  }

  lemma DropKeeps(e: Engine)
    requires Disciplined(e)
    ensures Disciplined(HandleDisconnected(e)) && Disciplined(HandleTimeout(e))
  {}

  lemma PopKeeps(e: Engine)
    requires Disciplined(e)
    ensures Disciplined(PopOutbox(e))
  {}

  lemma StorageKeeps(s: Sys, call: Call)
    requires Disciplined(s.e) && (call.Commit? || call.CaptureOps? || call.FoldPast? || call.FoldNow?)
    ensures Disciplined(Apply(s, call).e)
  {
    assert SameTalk(s.e, Apply(s, call).e);
  }

  lemma FlushKeeps(s: Sys, id: nat)
    requires Disciplined(s.e)
    ensures Disciplined(Flush(s, id).e)
  {
    if s.e.state == Idle {
      TryStartPushKeeps(s, id);
    }
  }

  /** Every call, with any input at all, keeps the discipline. */
  lemma CallKeeps(s: Sys, call: Call)
    requires Disciplined(s.e)
    ensures Disciplined(Apply(s, call).e)
  {
    match call {
      case OnDisk(seqNo) => NotifyKeeps(s, seqNo);
      case Connected => ConnectKeeps(s.e);
      case Dropped => DropKeeps(s.e);
      case Tick => DropKeeps(s.e);
      case FlushCall(id) => FlushKeeps(s, id);
      case Bytes(input, id) => BytesKeep(s, input, id);
      case Pop => PopKeeps(s.e);
      case _ => StorageKeeps(s, call);
    }
  }

  lemma BootIsDisciplined(docId: nat, c: Codec, st: Store)
    ensures Disciplined(Boot(docId, c, st))
  {}

  /** Frame discipline over whole runs: on every connection the engine's
      frames walk the protocol's phases and its state is the phase reached.
      So nothing but acks precedes `OpenDoc`, no push precedes a completed
      pull, no second push precedes the first one's ack, and a pushing engine
      holds exactly the push that is out. */
  lemma {:induction false} RunKeepsDiscipline(s: Sys, calls: seq<Call>)
    requires Disciplined(s.e)
    ensures Disciplined(Exec(s, calls).e)
  {
    if calls != [] {
      RunKeepsDiscipline(s, calls[..|calls| - 1]);
      CallKeeps(Exec(s, calls[..|calls| - 1]), calls[|calls| - 1]);
    }
  }

  // ---- what the phases mean, counted off the trace itself ----

  function PushesSent(trace: seq<Mark>): nat {
    if trace == [] then 0
    else
      var m := trace[|trace| - 1];
      PushesSent(trace[..|trace| - 1]) + if m.Sent? && m.frame.PushUpdates? then 1 else 0
  }

  function PushesAcked(trace: seq<Mark>): nat {
    if trace == [] then 0
    else PushesAcked(trace[..|trace| - 1]) + if trace[|trace| - 1].PushDone? then 1 else 0
  }

  /** The last push sent, if any. */
  function LastPush(trace: seq<Mark>): Option<nat> {
    if trace == [] then None
    else
      var m := trace[|trace| - 1];
      if m.Sent? && m.frame.PushUpdates? && |m.frame.updates| == 1 then Some(m.frame.updates[0].id)
      else LastPush(trace[..|trace| - 1])
  }

  /** A walk that never broke has at most one unacked push, sends one only
      after the pull completed, and opens the doc exactly once, after nothing
      but acks. */
  lemma {:induction false} PhasesMean(trace: seq<Mark>)
    requires Walk(trace) != Broken
    ensures PushesSent(trace) == PushesAcked(trace) + (if Walk(trace).Outstanding? then 1 else 0)
    ensures Walk(trace).Outstanding? ==> LastPush(trace) == Some(Walk(trace).id)
    ensures PullDone in trace <==> Walk(trace).Ready? || Walk(trace).Outstanding?
    ensures 0 < PushesSent(trace) ==> PullDone in trace
    ensures Walk(trace) == Start <==> Sent(OpenDoc) !in trace
    ensures Walk(trace) == Start ==> forall f :: f in Frames(trace) ==> f.Ack?
  {
    if trace != [] {
      PhasesMean(trace[..|trace| - 1]);
      assert trace == trace[..|trace| - 1] + [trace[|trace| - 1]];
    }
  }

  /** An engine reporting a push in progress has exactly one push unacked on
      the connection, and it is the recorded one; otherwise there is none. */
  lemma OnePushOutstanding(e: Engine)
    requires Disciplined(e)
    ensures e.state == Pushing || e.state == PushingDirty ==>
              && e.inFlight.Some?
              && PushesSent(e.trace) == PushesAcked(e.trace) + 1
              && LastPush(e.trace) == Some(e.inFlight.value.id)
    ensures e.state != Pushing && e.state != PushingDirty ==> PushesSent(e.trace) == PushesAcked(e.trace)
    ensures 0 < PushesSent(e.trace) ==> PullDone in e.trace
  {
    PhasesMean(e.trace);
  }

  /** A fresh connection opens with `OpenDoc` exactly when nothing was queued
      before it; whatever was queued while offline is acks, sent ahead. */
  lemma OpenDocLeads(e: Engine)
    requires Disciplined(e) && e.state == Disconnected
    ensures HandleConnected(e).outbox == e.outbox + [OpenDoc]
    ensures forall f :: f in e.outbox ==> f.Ack?
    ensures HandleConnected(e).outbox[0] == OpenDoc <==> e.outbox == []
  {
    PhasesMean(e.trace);
    if e.outbox != [] {
      assert e.outbox[0] in e.outbox && e.outbox[0] in Frames(e.trace);
    }
  }

  /** The one call that queues a frame on a disconnected engine: a durability
      notice that moves the durable frontier past the last ack. */
  lemma QueuesOffline(s: Sys, call: Call)
    requires Disciplined(s.e) && s.e.state == Disconnected && !call.Pop? && !call.Connected?
    ensures Apply(s, call).e.outbox != s.e.outbox <==>
              && call.OnDisk?
              && s.e.durable < call.seqNo && s.e.durable < s.e.contig
              && (s.e.sentAck < call.seqNo && s.e.sentAck < s.e.contig)
  {}

  lemma FirstRow(s: Sys, blob: Blob)
    requires s.e.contig == 0
    ensures var r := ApplyRemoteUpdates(s, [StoredBlob(1, blob)]).e;
            SameTalk(s.e, r) && r.contig == 1 && r.durable == s.e.durable && r.sentAck == s.e.sentAck
  {
    var updates := [StoredBlob(1, blob)];
    ApplyRemoteTalk(s, updates);
    var e := s.e.(doc := ApplyRemote(s.e.codec, s.e.doc, Blobs(updates)),
        known := s.e.known + BlobRange(s.e.codec, Blobs(updates)));
    AppendRowsTalk(s.(e := e), updates);
    assert updates[..0] == [];
    assert IngestAll(0, updates) == Ingest(IngestAll(0, updates[..0]), 1) == 1;
  }

  lemma Opens(s: Sys)
    requires s.e.state == Disconnected
    ensures var r := Apply(Apply(s, Connected), Bytes(Frame(s.e.docId, DocOpened(0)), 0));
            r.e.state == Pulling && r.e == s.e.(state := Pulling, epoch := Some(0), outbox := r.e.outbox,
                events := r.e.events, trace := r.e.trace)
  {}

  lemma FirstRowHeard(s: Sys, blob: Blob)
    requires s.e.state == Pulling && s.e.contig == 0
    ensures var r := Apply(s, Bytes(Frame(s.e.docId, UpdatesBroadcast([StoredBlob(1, blob)])), 0)).e;
            r.state == Pulling && r.contig == 1 && r.durable == s.e.durable && r.sentAck == s.e.sentAck
  {
    FirstRow(s, blob);
  }

  lemma NoticeOffline(s: Sys)
    requires s.e.state == Pulling && s.e.contig == 1 && s.e.durable == 0 && s.e.sentAck == 0
    ensures Apply(Apply(Apply(s, Dropped), OnDisk(1)), Connected).e.outbox == [Ack(1), OpenDoc]
  {}

  /** So a notice that lands while the engine is offline puts an ack on the
      next connection ahead of its `OpenDoc`: a device receives row 1, drops,
      learns that row 1 is on disk, and reconnects. */
  lemma AckCanPrecedeOpenDoc(s0: Sys, blob: Blob)
    requires s0.e == Boot(7, s0.e.codec, EMPTY)
    ensures var s1 := Apply(s0, Connected);
            var s2 := Apply(s1, Bytes(Frame(7, DocOpened(0)), 0));
            var s3 := Apply(s2, Bytes(Frame(7, UpdatesBroadcast([StoredBlob(1, blob)])), 0));
            var s4 := Apply(s3, Dropped);
            var s5 := Apply(s4, OnDisk(1));
            Apply(s5, Connected).e.outbox == [Ack(1), OpenDoc]
  {
    Opens(s0);
    var s2 := Apply(Apply(s0, Connected), Bytes(Frame(7, DocOpened(0)), 0));
    FirstRowHeard(s2, blob);
    NoticeOffline(Apply(s2, Bytes(Frame(7, UpdatesBroadcast([StoredBlob(1, blob)])), 0)));
  }
}
