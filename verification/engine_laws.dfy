/** What every call makes of an engine, told by the states before and after it:
    the state it goes to, what it learns, what it says to the wire and to the
    host, what it complains of. None of it speaks of how the call goes about
    it. */
module EngineLaws {
  import opened Wrappers
  import opened Operations
  import opened Protocol
  import opened LocalStore
  import opened Documents
  import opened EngineSpec
  import opened CallInvariant
  import EngineCalm
  import EngineCoherence
  import FrontierAssertion

  // ---- the calls that matter to a connection ----

  /** Bytes that decode to a frame for this engine, on a connection. */
  predicate Hears(e: Engine, call: Call) {
    call.Bytes? && e.state != Disconnected && call.input.Frame? && call.input.doc == e.docId
  }

  predicate EndsPull(e: Engine, call: Call) {
    Hears(e, call) && call.input.frame.UpdatesBatch? && call.input.frame.complete && e.state == Pulling
  }

  predicate EndsChain(e: Engine, call: Call) {
    Hears(e, call) && call.input.frame.Snapshot? && call.input.frame.complete && e.state == Bootstrapping
  }

  /** The one ack of the push that is out. */
  predicate Confirms(e: Engine, call: Call) {
    && Hears(e, call) && call.input.frame.UpdatesAck? && (e.state == Pushing || e.state == PushingDirty)
    && e.inFlight.Some? && |call.input.frame.acks| == 1 && call.input.frame.acks[0].id == e.inFlight.value.id
  }

  /** The server is done with this engine. */
  predicate Closes(e: Engine, call: Call) {
    Hears(e, call) && (call.input.frame.DocRejected? || call.input.frame.DocClosed?)
  }

  /** A request for a snapshot from a base the server is known to have. */
  predicate Asks(e: Engine, call: Call) {
    && Hears(e, call) && call.input.frame.SnapshotRequest?
    && (call.input.frame.base == None || call.input.frame.base.value.vv <= e.known)
  }

  /** The engine looks for something to push. */
  predicate MayPush(e: Engine, call: Call) {
    (call.FlushCall? && e.state == Idle) || EndsPull(e, call) || Confirms(e, call)
  }

  /** It finds something: a push it holds already, or operations the server is
      not known to have. */
  predicate Pushes(e: Engine, r: Engine, call: Call) {
    MayPush(e, call) && ((e.inFlight.Some? && !Confirms(e, call)) || !(e.codec.bound(r.doc.ops) <= r.known))
  }

  // ---- rows ----

  function RowOps(updates: seq<StoredBlob>): set<Op> {
    set u, o | u in updates && o in u.blob.ops :: o
  }

  function RowRange(c: Codec, updates: seq<StoredBlob>): set<Op> {
    set u, o | u in updates && o in c.bound(u.blob.ops) :: o
  }

  lemma {:induction false} BlobsOfRows(c: Codec, updates: seq<StoredBlob>)
    ensures BlobOps(Blobs(updates)) == RowOps(updates) && BlobRange(c, Blobs(updates)) == RowRange(c, updates)
  {
    if updates != [] {
      var front, u := updates[..|updates| - 1], updates[|updates| - 1];
      BlobsOfRows(c, front);
      assert Blobs(updates)[..|updates| - 1] == Blobs(front);
      assert forall v :: v in updates <==> v in front || v == u;
      assert RowOps(updates) == RowOps(front) + u.blob.ops;
      assert RowRange(c, updates) == RowRange(c, front) + c.bound(u.blob.ops);
    }
  }

  function Risen(e: Engine, contig: nat): seq<Event> {
    if e.contig < contig then [FrontierAdvanced(contig)] else []
  }

  lemma {:induction false} AppendRowsRecord(s: Sys, updates: seq<StoredBlob>)
    ensures AppendRows(s, updates).st.inFlight == s.st.inFlight
  {
    if updates != [] {
      AppendRowsRecord(s, updates[..|updates| - 1]);
    }
  }

  /** What importing rows leaves alone, and what it does. */
  lemma RowsTaken(s: Sys, updates: seq<StoredBlob>)
    ensures var r := ApplyRemoteUpdates(s, updates);
            && r.e == s.e.(doc := r.e.doc, known := r.e.known, lastLocalSeq := r.e.lastLocalSeq,
                           walRows := r.e.walRows, walBytes := r.e.walBytes, contig := r.e.contig,
                           events := s.e.events + Risen(s.e, r.e.contig))
            && r.e.doc.ops == s.e.doc.ops + RowOps(updates)
            && r.e.known == s.e.known + RowRange(s.e.codec, updates)
            && s.e.contig <= r.e.contig && r.st.inFlight == s.st.inFlight
  {
    if updates != [] {
      var c := s.e.codec;
      var e := s.e.(doc := ApplyRemote(c, s.e.doc, Blobs(updates)), known := s.e.known + BlobRange(c, Blobs(updates)));
      BlobsOfRows(c, updates);
      EngineCalm.AppendRowsQuiet(s.(e := e), updates);
      AppendRowsRecord(s.(e := e), updates);
      assert updates[..|updates|] == updates;
      FrontierAssertion.FrontierRises(s.e.contig, updates, 0, |updates|);
    }
  }

  /** What a push, started or not, leaves alone, and what it does. */
  lemma PushTried(s: Sys, id: nat)
    requires s.e.state == Idle
    ensures var r := TryStartPush(s, id);
            var news := !(s.e.codec.bound(s.e.doc.ops) <= s.e.known);
            && r.e == s.e.(doc := r.e.doc, lastLocalSeq := r.e.lastLocalSeq, walRows := r.e.walRows,
                           walBytes := r.e.walBytes, inFlight := r.e.inFlight, state := r.e.state,
                           outbox := r.e.outbox, trace := r.e.trace)
            && r.e.doc.ops == s.e.doc.ops
            && r.e.state == (if s.e.inFlight.Some? || news then Pushing else Idle)
            && (r.e.state == Idle ==> r.e.outbox == s.e.outbox && r.e.inFlight == None)
            && (r.e.state == Pushing ==> r.e.inFlight.Some? && r.e.outbox == s.e.outbox + [PushOf(r.e)])
            && (s.e.inFlight.Some? ==> r.e.inFlight == s.e.inFlight && r.st == s.st)
            && (s.e.inFlight == None && news ==> Recorded(r, id))
  {}

  /** The frame that carries the recorded push. */
  function PushOf(e: Engine): ClientFrame
    requires e.inFlight.Some?
  {
    PushUpdates([PushBlob(e.inFlight.value.id, e.inFlight.value.payload)])
  }

  /** What the server is not known to have, all of it, under `id`, in memory
      and on disk. */
  ghost predicate Recorded(r: Sys, id: nat) {
    var news := r.e.doc.ops - r.e.known;
    var payload := Blob(news, r.e.codec.bytes(news));
    && r.e.inFlight == Some(InFlight(id, payload, r.e.codec.bound(r.e.doc.ops)))
    && r.st.inFlight == Some(InFlightPush(id, payload, r.e.known, r.e.codec.bound(r.e.doc.ops)))
  }

  lemma BatchTaken(s: Sys, updates: seq<StoredBlob>, complete: bool, id: nat)
    requires s.e.state != Bootstrapping && s.e.state != Disconnected
    ensures OnBatch(s, updates, complete, id) ==
            if complete && s.e.state == Pulling then TryStartPush(Pulled(ApplyRemoteUpdates(s, updates)), id)
            else ApplyRemoteUpdates(s, updates)
    ensures complete && s.e.state == Pulling ==> Pulled(ApplyRemoteUpdates(s, updates)).e.state == Idle
  {
    BatchCases(s, updates, complete, id);
  }

  // ---- the laws ----

  /** Which state a call leads to. */
  function StateAfter(e: Engine, r: Engine, call: Call): ConnState {
    if call.Dropped? || Closes(e, call) then Disconnected
    else if call.Connected? && e.state == Disconnected then Opening
    else if Hears(e, call) && call.input.frame.DocOpened? && e.state == Opening then Pulling
    else if Hears(e, call) && call.input.frame.SnapshotRequired? && e.state == Pulling then Bootstrapping
    else if EndsChain(e, call) then Pulling
    else if MayPush(e, call) then (if Pushes(e, r, call) then Pushing else Idle)
    else if call.FlushCall? && e.state == Pushing then PushingDirty
    else e.state
  }

  /** What a call brings into the doc. */
  function Brought(e: Engine, call: Call): set<Op> {
    if call.Commit? then call.ops
    else if !Hears(e, call) then {}
    else
      match call.input.frame
      case UpdatesBatch(updates, _) => if e.state == Bootstrapping then {} else RowOps(updates)
      case UpdatesBroadcast(updates) => if e.state == Bootstrapping then {} else RowOps(updates)
      case Snapshot(_, blob, _) => if e.state == Bootstrapping then blob.ops else {}
      case _ => {}
  }

  /** What it proves the server to have. */
  function Taught(e: Engine, call: Call): set<Op> {
    if !Hears(e, call) then {}
    else if Confirms(e, call) then e.inFlight.value.toVV
    else
      match call.input.frame
      case UpdatesBatch(updates, _) => if e.state == Bootstrapping then {} else RowRange(e.codec, updates)
      case UpdatesBroadcast(updates) => if e.state == Bootstrapping then {} else RowRange(e.codec, updates)
      case Snapshot(_, blob, _) => if e.state == Bootstrapping then e.codec.bound(blob.ops) else {}
      case _ => {}
  }

  /** What it queues for the wire: an ack of a row newly durable, the answer to
      a request, the push that starts, and else what opens the state that is
      entered. */
  function Spoken(e: Engine, r: Engine, call: Call): seq<ClientFrame> {
    if call.OnDisk? then
      var n := Min(call.seqNo, e.contig);
      if e.durable < n && e.sentAck < n then [Ack(n)] else []
    else if Asks(e, call) then [Answer(e, call.input.frame.floor, call.input.frame.base)]
    else if Pushes(e, r, call) then (if r.inFlight.Some? then [PushOf(r)] else [])
    else if r.state == e.state && !EndsChain(e, call) then []
    else
      match r.state
      case Opening => [OpenDoc]
      case Pulling => [PullUpdates(r.contig)]
      case Bootstrapping => [PullSnapshot]
      case _ => []
  }

  /** Exactly what the doc and the server have in common, past the base. */
  function Answer(e: Engine, floor: nat, base: Option<SnapshotBase>): ClientFrame {
    var common := if base == None then e.doc.ops * e.known else e.doc.ops * (e.known - base.value.vv);
    var from := if base == None then None else Some(base.value.seqNo);
    PushSnapshot(e.contig, floor, from, e.known, Blob(common, e.codec.bytes(common)))
  }

  /** What it tells the host: each change of the frontier, of the pull, of the
      push and of the connection, and that the server closed the doc. */
  function Reported(e: Engine, r: Engine, call: Call): seq<Event> {
    if Closes(e, call) then
      [ClosedByServer(if call.input.frame.DocRejected? then "doc rejected: " + call.input.frame.reason
                      else "doc closed: " + call.input.frame.reason),
       ConnStateChanged(false)]
    else if Hears(e, call) && call.input.frame.Presence? then [PresenceChanged(call.input.frame.accounts)]
    else if EndsPull(e, call) then Risen(e, r.contig) + [PulledInitial]
    else if Confirms(e, call) then Risen(e, r.contig) + [Pushed]
    else if e.state == Disconnected && r.state != Disconnected then [ConnStateChanged(true)]
    else if e.state != Disconnected && r.state == Disconnected then [ConnStateChanged(false)]
    else Risen(e, r.contig)
  }

  /** What it only complains of. */
  predicate Amiss(e: Engine, call: Call) {
    || (call.Connected? && e.state != Disconnected)
    || (call.Tick? && e.state == Opening)
    || (call.Bytes? && !Hears(e, call))
    || (Hears(e, call) && AmissFrame(e, call))
  }

  predicate AmissFrame(e: Engine, call: Call)
    requires Hears(e, call)
  {
    match call.input.frame
    case DocOpened(_) => e.state != Opening
    case UpdatesBatch(_, _) => e.state == Bootstrapping
    case UpdatesAck(_) => !Confirms(e, call)
    case SnapshotRequired(_) => e.state != Pulling
    case Snapshot(_, _, _) => e.state != Bootstrapping
    case SnapshotRequest(_, _, _) => !Asks(e, call)
    case _ => false
  }

  /** The doc, what is known of the server, and the cursors. */
  ghost predicate Learned(e: Engine, call: Call, r: Engine) {
    && r.docId == e.docId && r.codec == e.codec
    && r.doc.ops == e.doc.ops + Brought(e, call)
    && r.known == e.known + Taught(e, call)
    && e.contig <= r.contig
    && (EndsChain(e, call) ==> r.contig == Max(e.contig, call.input.frame.upToSeq))
    && (!call.Bytes? ==> r.contig == e.contig)
    && (!call.OnDisk? ==> r.durable == e.durable && r.sentAck == e.sentAck)
  }

  /** The state, what is said, and the push on record. */
  ghost predicate Talked(s: Sys, call: Call, r: Sys) {
    if Amiss(s.e, call) then Complained(s, call, r)
    else
      && r.e.state == StateAfter(s.e, r.e, call)
      && r.e.events == s.e.events + Reported(s.e, r.e, call)
      && r.e.outbox == Outbox(s.e, r.e, call)
      && PushKept(s, call, r)
  }

  ghost predicate Lawful(s: Sys, call: Call, r: Sys) { Learned(s.e, call, r.e) && Talked(s, call, r) }

  /** One error more, and nothing else. An ack with no push out, which a
      disciplined engine never meets, also ends the push. */
  ghost predicate Complained(s: Sys, call: Call, r: Sys) {
    && r.st == s.st && r.history == s.history
    && r.e == s.e.(state := r.e.state, events := r.e.events)
    && |r.e.events| == |s.e.events| + 1 && s.e.events <= r.e.events && r.e.events[|s.e.events|].Error?
    && (r.e.state == s.e.state || ((s.e.state == Pushing || s.e.state == PushingDirty) && s.e.inFlight == None))
  }

  function Outbox(e: Engine, r: Engine, call: Call): seq<ClientFrame> {
    if call.Pop? then (if e.outbox == [] then [] else e.outbox[1..])
    else if e.state != Disconnected && r.state == Disconnected then []
    else e.outbox + Spoken(e, r, call)
  }

  /** The push that is out stays on record until it is confirmed, and is the
      one sent again; only then is there a new one, with all there is. */
  ghost predicate PushKept(s: Sys, call: Call, r: Sys) {
    if s.e.inFlight.Some? && !Confirms(s.e, call) then r.e.inFlight == s.e.inFlight && r.st.inFlight == s.st.inFlight
    else if Pushes(s.e, r.e, call) then Recorded(r, call.id)
    else r.e.inFlight == None
  }

  lemma RowsLawful(s: Sys, call: Call)
    requires Hears(s.e, call) && s.e.state != Bootstrapping
    requires call.input.frame.UpdatesBroadcast? || (call.input.frame.UpdatesBatch? && !EndsPull(s.e, call))
    ensures Lawful(s, call, ApplyRemoteUpdates(s, call.input.frame.updates))
  {
    RowsTaken(s, call.input.frame.updates);
  }

  lemma PullEndLawful(s: Sys, call: Call)
    requires EndsPull(s.e, call)
    ensures Lawful(s, call, TryStartPush(Pulled(ApplyRemoteUpdates(s, call.input.frame.updates)), call.id))
  {
    RowsTaken(s, call.input.frame.updates);
    var a := Pulled(ApplyRemoteUpdates(s, call.input.frame.updates));
    PushTried(a, call.id);
  }

  lemma BatchLawful(s: Sys, call: Call)
    requires Hears(s.e, call) && call.input.frame.UpdatesBatch?
    ensures Lawful(s, call, HandleFrame(s, call.input.frame, call.id))
  {
    if s.e.state != Bootstrapping {
      BatchCases(s, call.input.frame.updates, call.input.frame.complete, call.id);
      if EndsPull(s.e, call) { PullEndLawful(s, call); } else { RowsLawful(s, call); }
    }
  }

  lemma AckTaken(s: Sys, ack: PushAck)
    requires s.e.inFlight.Some?
    ensures var r := Acked(s, ack).e;
            r == s.e.(inFlight := None, known := s.e.known + s.e.inFlight.value.toVV, contig := r.contig,
                      state := Idle, events := s.e.events + (Risen(s.e, r.contig) + [Pushed]), trace := r.trace)
            && s.e.contig <= r.contig
  {}

  lemma AckLawful(s: Sys, call: Call)
    requires Hears(s.e, call) && call.input.frame.UpdatesAck?
    ensures Lawful(s, call, HandleFrame(s, call.input.frame, call.id))
  {
    if Confirms(s.e, call) {
      var ack := call.input.frame.acks[0];
      AckAccepted(s, call.input.frame.acks, call.id);
      AckTaken(s, ack);
      PushTried(Acked(s, ack), call.id);
    }
  }

  lemma SnapshotLearns(s: Sys, call: Call)
    requires Hears(s.e, call) && call.input.frame.Snapshot?
    ensures var f := call.input.frame; Learned(s.e, call, OnSnapshot(s, f.upToSeq, f.blob, f.complete).e)
  {
    var blob := call.input.frame.blob;
    assert [blob][..0] == [];
    assert BlobOps([blob]) == BlobOps([blob][..0]) + blob.ops;
    assert BlobRange(s.e.codec, [blob]) == BlobRange(s.e.codec, [blob][..0]) + s.e.codec.bound(blob.ops);
  }

  lemma SnapshotTalks(s: Sys, call: Call)
    requires Hears(s.e, call) && call.input.frame.Snapshot?
    ensures var f := call.input.frame; Talked(s, call, OnSnapshot(s, f.upToSeq, f.blob, f.complete))
  {}

  predicate Moves(f: ServerFrame) {
    f.DocOpened? || f.DocRejected? || f.DocClosed? || f.Presence? || f.SnapshotRequired? || f.SnapshotRequest?
  }

  lemma MovesLearn(s: Sys, call: Call)
    requires Hears(s.e, call) && Moves(call.input.frame)
    ensures Learned(s.e, call, HandleFrame(s, call.input.frame, call.id).e)
  {
    EngineCoherence.QuietFrames(s, call.input.frame, call.id);
    QuietLearns(s.e, call, HandleFrame(s, call.input.frame, call.id).e);
  }

  lemma QuietLearns(e: Engine, call: Call, r: Engine)
    requires EngineCoherence.Quiet(e, r) && Brought(e, call) == {} && Taught(e, call) == {} && !EndsChain(e, call)
    ensures Learned(e, call, r)
  {}

  lemma RequestTalks(s: Sys, call: Call)
    requires Hears(s.e, call) && call.input.frame.SnapshotRequest?
    ensures Talked(s, call, s.(e := OnSnapshotRequest(s.e, call.input.frame.floor, call.input.frame.base)))
  {
    var e, floor, base := s.e, call.input.frame.floor, call.input.frame.base;
    Answered(e, floor, base);
    var r := OnSnapshotRequest(e, floor, base);
    if Asks(e, call) {
      assert !Amiss(e, call) && !MayPush(e, call) && StateAfter(e, r, call) == e.state && Reported(e, r, call) == [];
    }
  }

  lemma Answered(e: Engine, floor: nat, base: Option<SnapshotBase>)
    ensures var r := OnSnapshotRequest(e, floor, base);
            if base == None || base.value.vv <= e.known then
              r == e.(outbox := e.outbox + [Answer(e, floor, base)], trace := r.trace)
            else r == e.(events := r.events) && |r.events| == |e.events| + 1 && r.events[..|e.events|] == e.events
                 && r.events[|e.events|].Error?
  {}

  lemma ClosedTalks(s: Sys, call: Call)
    requires Closes(s.e, call)
    ensures Talked(s, call, HandleFrame(s, call.input.frame, call.id))
  {}

  lemma MovesTalk(s: Sys, call: Call)
    requires Hears(s.e, call) && Moves(call.input.frame)
    ensures Talked(s, call, HandleFrame(s, call.input.frame, call.id))
  {
    if call.input.frame.SnapshotRequest? { RequestTalks(s, call); }
    if Closes(s.e, call) { ClosedTalks(s, call); }
  }

  lemma BytesLawful(s: Sys, call: Call)
    requires call.Bytes?
    ensures Lawful(s, call, Apply(s, call))
  {
    if Hears(s.e, call) {
      match call.input.frame {
        case UpdatesBatch(_, _) => BatchLawful(s, call);
        case UpdatesBroadcast(_) => if s.e.state != Bootstrapping { RowsLawful(s, call); }
        case UpdatesAck(_) => AckLawful(s, call);
        case Snapshot(_, _, _) =>
          SnapshotLearns(s, call);
          SnapshotTalks(s, call);
        case _ =>
          MovesLearn(s, call);
          MovesTalk(s, call);
      }
    }
  }

  lemma FlushLawful(s: Sys, call: Call)
    requires call.FlushCall?
    ensures Lawful(s, call, Apply(s, call))
  {
    if s.e.state == Idle { PushTried(s, call.id); }
  }

  lemma StorageLawful(s: Sys, call: Call)
    requires call.CaptureOps? || call.FoldPast? || call.FoldNow?
    ensures Lawful(s, call, Apply(s, call))
  {
    var r := Apply(s, call);
    assert r.e == s.e.(doc := r.e.doc, lastLocalSeq := r.e.lastLocalSeq, walRows := r.e.walRows,
                       walBytes := r.e.walBytes);
    assert r.e.doc.ops == s.e.doc.ops && r.st.inFlight == s.st.inFlight;
  }

  lemma NoticeLawful(s: Sys, call: Call)
    requires call.OnDisk?
    ensures Lawful(s, call, Apply(s, call))
  {}

  predicate Transport(call: Call) { call.Commit? || call.Connected? || call.Dropped? || call.Tick? || call.Pop? }

  lemma TransportLearns(s: Sys, call: Call)
    requires Transport(call)
    ensures Learned(s.e, call, Apply(s, call).e)
  {}

  lemma TransportTalks(s: Sys, call: Call)
    requires Transport(call)
    ensures Talked(s, call, Apply(s, call))
  {}

  /** Every call, of every engine, keeps the laws. */
  lemma EveryCallLawful(s: Sys, call: Call)
    ensures Lawful(s, call, Apply(s, call))
  {
    match call {
      case Bytes(_, _) => BytesLawful(s, call);
      case FlushCall(_) => FlushLawful(s, call);
      case OnDisk(_) => NoticeLawful(s, call);
      case CaptureOps => StorageLawful(s, call);
      case FoldPast(_, _) => StorageLawful(s, call);
      case FoldNow => StorageLawful(s, call);
      case _ =>
        TransportLearns(s, call);
        TransportTalks(s, call);
    }
  }

  // ---- acks ----

  /** A notice that rows up to `seqNo` are on disk: when it is news the cursor
      is stored, and acked unless an ack went as far; else nothing happens. */
  lemma NoticeAcks(s: Sys, seqNo: nat)
    ensures var r, n := Apply(s, OnDisk(seqNo)), Min(seqNo, s.e.contig);
            if s.e.durable < n then
              && r.st == s.st.(ackedSeq := n)
              && r.e == s.e.(durable := n, sentAck := Max(s.e.sentAck, n), outbox := r.e.outbox, trace := r.e.trace)
              && r.e.outbox == s.e.outbox + (if s.e.sentAck < n then [Ack(n)] else [])
            else r == s
  {}

  /** What a call adds to the outbox. */
  function Queued(s: Sys, call: Call): seq<ClientFrame> {
    var r := Apply(s, call);
    if s.e.outbox <= r.e.outbox then r.e.outbox[|s.e.outbox|..] else []
  }

  /** And a run of calls, sent since or not, dropped since or not. */
  function AllQueued(s: Sys, calls: seq<Call>): seq<ClientFrame> {
    if calls == [] then []
    else
      var front := calls[..|calls| - 1];
      AllQueued(s, front) + Queued(Exec(s, front), calls[|calls| - 1])
  }

  /** The row the last ack among `frames` names. */
  function LastAck(frames: seq<ClientFrame>): Option<nat> {
    if frames == [] then None
    else if frames[|frames| - 1].Ack? then Some(frames[|frames| - 1].lastAcked)
    else LastAck(frames[..|frames| - 1])
  }

  lemma {:induction false} NoAck(frames: seq<ClientFrame>)
    requires forall f :: f in frames ==> !f.Ack?
    ensures LastAck(frames) == None
  {
    if frames != [] { NoAck(frames[..|frames| - 1]); }
  }

  lemma {:induction false} LastAckOf(a: seq<ClientFrame>, b: seq<ClientFrame>)
    ensures LastAck(a + b) == if LastAck(b) == None then LastAck(a) else LastAck(b)
  {
    if b == [] {
      assert a + b == a;
    } else {
      assert (a + b)[..|a + b| - 1] == a + b[..|b| - 1];
      LastAckOf(a, b[..|b| - 1]);
    }
  }

  /** The acks among `q` rise from past `from`, and the last of them names
      `to`; without any the two are one. */
  ghost predicate Rising(q: seq<ClientFrame>, from: nat, to: nat) {
    && to == (if LastAck(q) == None then from else LastAck(q).value)
    && (forall i :: 0 <= i < |q| && q[i].Ack? ==> from < q[i].lastAcked <= to)
    && (forall i, j :: 0 <= i < j < |q| && q[i].Ack? && q[j].Ack? ==> q[i].lastAcked < q[j].lastAcked)
  }

  lemma {:induction false} RisingEnds(q: seq<ClientFrame>, from: nat, to: nat)
    requires Rising(q, from, to)
    ensures from <= to && (LastAck(q) == None ==> forall f :: f in q ==> !f.Ack?)
  {
    if q != [] && !q[|q| - 1].Ack? {
      RisingEnds(q[..|q| - 1], from, to);
      assert forall f :: f in q <==> f in q[..|q| - 1] || f == q[|q| - 1];
    }
  }

  lemma RisingOn(a: seq<ClientFrame>, b: seq<ClientFrame>, from: nat, mid: nat, to: nat)
    requires Rising(a, from, mid) && Rising(b, mid, to)
    ensures Rising(a + b, from, to)
  {
    LastAckOf(a, b);
    RisingEnds(a, from, mid);
    RisingEnds(b, mid, to);
  }

  /** One call: only such a notice queues an ack, and only it moves the two
      cursors, together. */
  lemma CallAcks(s: Sys, call: Call)
    ensures var r := Apply(s, call).e;
            Rising(Queued(s, call), s.e.sentAck, r.sentAck) && (s.e.sentAck == s.e.durable ==> r.sentAck == r.durable)
  {
    if call.OnDisk? {
      NoticeAcks(s, call.seqNo);
    } else {
      EveryCallLawful(s, call);
      QueuesNoAck(s, call);
      NoAck(Queued(s, call));
    }
  }

  lemma QueuesNoAck(s: Sys, call: Call)
    requires !call.OnDisk? && Lawful(s, call, Apply(s, call))
    ensures forall f :: f in Queued(s, call) ==> !f.Ack?
  {}

  /** Through any calls: the sent cursor is the row of the last ack ever
      queued, or where it was if there was none, and acks only rise. Cursors
      that start as one stay one, so every durable row is acked once. */
  lemma {:induction false} RunAcks(s: Sys, calls: seq<Call>)
    ensures var r := Exec(s, calls).e;
            && Rising(AllQueued(s, calls), s.e.sentAck, r.sentAck)
            && (s.e.sentAck == s.e.durable ==> r.sentAck == r.durable)
  {
    if calls != [] {
      var front, call := calls[..|calls| - 1], calls[|calls| - 1];
      RunAcks(s, front);
      CallAcks(Exec(s, front), call);
      RisingOn(AllQueued(s, front), Queued(Exec(s, front), call), s.e.sentAck, Exec(s, front).e.sentAck,
               Exec(s, calls).e.sentAck);
    }
  }

  /** From boot the last ack ever queued names the stored cursor, which is
      where the boot found it if none was. */
  lemma BootAcks(docId: nat, c: Codec, st: Store, history: seq<Store>, calls: seq<Call>)
    requires Ordered(st)
    ensures var s := Sys(Boot(docId, c, st), st, history);
            var r, last := Exec(s, calls), LastAck(AllQueued(s, calls));
            r.st.ackedSeq == r.e.durable == r.e.sentAck == (if last == None then st.ackedSeq else last.value)
  {
    var s := Sys(Boot(docId, c, st), st, history);
    RunAcks(s, calls);
    EngineCoherence.BootIsCoherent(docId, c, st, history);
    EngineCoherence.RunCoherent(s, calls);
  }
}
